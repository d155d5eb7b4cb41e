/** Calls as atomic steps: the status fixes the money, the edges are the allowed ones, and runs are short. */
module PayRuns {
  import opened Text
  import opened Decimal
  import opened Pay
  import opened PayStore
  import opened PayRecords
  import opened PayThreads
  import opened PayOutcomes

  // --------------------------------------------------------------- tidy records

  /** What the status says about the money. */
  predicate MoneyFits(r: Record) {
    match r.status
    case Captured => r.refunded == 0
    case PartialRefunded => r.refunded < r.captured
    case Refunded => r.refunded >= r.captured
    case HoldPending => false
    case _ => r.captured == 0 && r.refunded == 0 && r.refunds == []
  }

  ghost predicate EdgesAllowed(h: seq<HistoryEntry>) {
    forall i :: 0 <= i < |h| && h[i].from.Some? ==> Allowed(h[i].from.value, h[i].to)
  }

  predicate Allowed(from: Status, to: Status) {
    AllowedTransitions(to).None? || from in AllowedTransitions(to).value
  }

  function Rank(s: Status): nat {
    match s
    case New => 0
    case HoldPending => 0
    case Authorized => 1
    case Failed => 1
    case Captured => 2
    case Cancelled => 2
    case PartialRefunded => 3
    case Refunded => 4
  }

  predicate Final(s: Status) { s == Cancelled || s == Refunded || s == Failed }

  ghost predicate Tidy(r: Record) {
    MoneyFits(r) && EdgesAllowed(r.history) && |r.history| <= Rank(r.status) + 1
  }

  /** The state in which an operation makes a change; kept up to the update when calls are atomic. */
  predicate Timely(c: Change, r: Record) {
    match c
    case SetCaptured(_, _) => r.status == Authorized
    case AddRefundOp(_, _, _) => r.status == Captured || r.status == PartialRefunded
    case AddRefund(_, _, _) => r.status == Captured || r.status == PartialRefunded
    case EpayDeclined(_, _) => r.status == New
    case FlittDeclined(_) => r.status == New
    case Force(_, _) => false
    case _ => true
  }

  /** The status either stays or climbs in rank along an allowed edge. */
  lemma TimelyStatus(r: Record, c: Change, now: int)
    requires ServiceChange(c) && Timely(c, r) && r.status != HoldPending
    ensures var s := Changed(r, c, now).0.status;
            s == r.status || (Allowed(r.status, s) && Rank(s) > Rank(r.status) && s != HoldPending && !Final(r.status))
  {
    if c.AddRefundOp? {
      RefundOpEffect(r, c, now);
      hide Changed, Add64, Negated;
    } else if c.AddRefund? {
      RefundEffect(r, c, now);
      hide Changed, Add64, Negated;
    } else if c.Transition? {
      TransitionStatus(r, c, now);
      hide Changed;
    } else {
      PlainStatus(r, c, now);
      hide Changed;
    }
  }

  lemma TransitionStatus(r: Record, c: Change, now: int)
    requires c.Transition? && ServiceChange(c)
    ensures var s := Changed(r, c, now).0.status;
            s == r.status || (s == c.to && r.status in AllowedTransitions(s).value)
  {
  }

  lemma PlainStatus(r: Record, c: Change, now: int)
    requires ServiceChange(c) && !c.Transition? && !c.AddRefundOp? && !c.AddRefund?
    ensures Changed(r, c, now).0.status
         == if c.SetCaptured? then Captured else if c.EpayDeclined? || c.FlittDeclined? then Failed else r.status
  {
  }

  lemma TimelyMoney(r: Record, c: Change, now: int)
    requires ServiceChange(c) && Timely(c, r) && MoneyFits(r)
    ensures MoneyFits(Changed(r, c, now).0)
  {
    if c.AddRefundOp? {
      RefundOpEffect(r, c, now);
      hide Changed;
    } else if c.AddRefund? {
      RefundEffect(r, c, now);
      hide Changed;
    } else {
      OtherEffect(r, c, now);
      TimelyStatus(r, c, now);
      hide Changed;
    }
    hide Add64;
  }

  lemma TimelyKeepsTidy(r: Record, c: Change, now: int)
    requires ServiceChange(c) && Timely(c, r) && Tidy(r)
    ensures Tidy(Changed(r, c, now).0)
  {
    TimelyMoney(r, c, now);
    TimelyStatus(r, c, now);
    HistoryGrowsWithStatus(r, c, now);
    hide Changed;
    hide MoneyFits;
    hide AllowedTransitions;
    var r' := Changed(r, c, now).0;
    if r'.status != r.status {
      var why :| r'.history == r.history + [HistoryEntry(Some(r.status), r'.status, why)];
    }
  }

  // -------------------------------------------------------------- the calls

  datatype Call = Make(c: Creation) | Serve(op: Op, id: nat) | Clear

  datatype Moment = Moment(call: Call, now: int)

  function StepCall(st: Store, m: Moment): Store {
    match m.call
    case Make(c) => CreatePayment(st, c, m.now).0
    case Serve(op, id) => Perform(st, op, id, m.now).0
    case Clear => Store(map[], map[], st.nextID)
  }

  function RunCalls(st: Store, calls: seq<Moment>): Store
    decreases |calls|
  {
    if calls == [] then st else RunCalls(StepCall(st, calls[0]), calls[1..])
  }

  predicate SparesCall(m: Moment, panel: Panel) {
    m.call.Serve? && m.call.op.ApplyForce? ==> MayForce(panel, m.call.id)
  }

  predicate SparesCalls(calls: seq<Moment>, panel: Panel) {
    forall k :: 0 <= k < |calls| ==> SparesCall(calls[k], panel)
  }

  /** Nobody forces this payment; others may be. */
  predicate NeverForcedCalls(calls: seq<Moment>, id: nat) {
    SparesCalls(calls, AllBut(id))
  }

  function Empty(base: nat): Store { Store(map[], map[], base) }

  predicate NoClear(calls: seq<Moment>) {
    forall k :: 0 <= k < |calls| ==> !calls[k].call.Clear?
  }

  /** The amount a refund call names; zero means all that is left. */
  function Asked(op: Op): nat {
    match op
    case Revoke(amount, _) => amount
    case EpayRefund(n) => if n <= 0 then 0 else n
    case FlittReverse(amount) => amount
    case _ => 0
  }

  ghost predicate AllTidy(st: Store, panel: Panel) {
    forall id :: id in st.byID ==> id <= st.nextID && (MayForce(panel, id) || Tidy(st.byID[id]))
  }

  predicate Spent(s: Status) { s == Captured || s == PartialRefunded || s == Refunded }

  /** What a status answer shows of a payment apart from its refunds; a refunded payment shows as captured. */
  datatype Face = Face(paymentID: nat, orderID: nat, currency: string, amount: uint64, captured: uint64,
                       createdAt: int, authorizedAt: Option<int>, reference: nat, cardPAN: string, cardToken: string,
                       userEmail: string, userPhone: string, lastError: string, status: Status)

  function FaceOf(r: Record): Face {
    Face(r.paymentID, r.orderID, r.currency, r.amount, r.captured, r.createdAt, r.authorizedAt, r.reference,
         r.cardPAN, r.cardToken, r.userEmail, r.userPhone, r.lastError,
         if r.status == PartialRefunded || r.status == Refunded then Captured else r.status)
  }

  /** How a record may differ after more calls. */
  ghost predicate Later(r: Record, r': Record) {
    && r.history <= r'.history && SameIdentity(r, r') && Rank(r.status) <= Rank(r'.status)
    && (r'.status == New || r'.status == HoldPending ==> r.status == New || r.status == HoldPending)
    && (r.reference != 0 ==> r'.reference != 0)
    && (r.reference != 0 && Spent(r.status) ==> Spent(r'.status) && FaceOf(r') == FaceOf(r))
    && (Final(r.status) ==>
          r'.status == r.status && r'.captured == r.captured && r'.refunded == r.refunded && r'.refunds == r.refunds)
  }

  ghost predicate Aged(st: Store, st': Store, panel: Panel) {
    forall id :: id in st.byID ==> id in st'.byID && (MayForce(panel, id) || Later(st.byID[id], st'.byID[id]))
  }

  lemma FinalMoney(r: Record, c: Change, now: int)
    requires ServiceChange(c) && Timely(c, r) && Final(r.status)
    ensures var r' := Changed(r, c, now).0;
            r'.captured == r.captured && r'.refunded == r.refunded && r'.refunds == r.refunds
  {
    OtherEffect(r, c, now);
  }

  lemma SpentClosure(r: Record, c: Change, now: int)
    requires ServiceChange(c) && Timely(c, r) && Spent(r.status) && r.reference != 0
    ensures var o := Effect(r, c, now);
            && o.rec.status == r.status && FaceOf(o.rec) == FaceOf(r)
            && (o.err.None? && o.to.Some? ==> Spent(o.to.value))
  {
    hide Add64;
    hide Negated;
    if c.Transition? { SpentTransition(r, c, now); }
  }

  lemma SpentTransition(r: Record, c: Change, now: int)
    requires ServiceChange(c) && c.Transition? && Spent(r.status)
    ensures Effect(r, c, now) == Outcome(r, Some(r.status), "", Some(InvalidTransition))
  {
  }

  lemma SpentKeepsFace(r: Record, c: Change, now: int)
    requires ServiceChange(c) && Timely(c, r) && Spent(r.status) && r.reference != 0
    ensures var r' := Changed(r, c, now).0;
            Spent(r'.status) && FaceOf(r') == FaceOf(r)
  {
    SpentClosure(r, c, now);
    hide Effect;
  }

  lemma ReferenceStays(r: Record, c: Change, now: int)
    ensures r.reference != 0 ==> Changed(r, c, now).0.reference == r.reference
  {
    hide Add64;
    hide Negated;
  }

  lemma TimelyAges(r: Record, c: Change, now: int)
    requires ServiceChange(c) && Timely(c, r) && r.status != HoldPending
    ensures Later(r, Changed(r, c, now).0)
  {
    TimelyStatus(r, c, now);
    StatusMoves(r, c, now);
    HistoryGrowsWithStatus(r, c, now);
    ChangeKeepsIdentity(r, c, now);
    if Final(r.status) { FinalMoney(r, c, now); }
    if Spent(r.status) && r.reference != 0 { SpentKeepsFace(r, c, now); }
    ReferenceStays(r, c, now);
    hide Changed;
    hide AllowedTransitions;
  }

  predicate TimelyTask(t: Task, r: Record) {
    match t
    case Do(c) => ServiceChange(c) && Timely(c, r)
    case Refund(_, _) => r.status == Captured || r.status == PartialRefunded
  }

  /** At most the first update moves money or status. */
  predicate Calm(tasks: seq<Task>, r: Record) {
    tasks == [] || (TimelyTask(tasks[0], r) && forall k :: 0 < k < |tasks| ==> Neutral(tasks[k]))
  }

  lemma LaterOnward(a: Record, b: Record, c: Record)
    requires Later(a, b) && Later(b, c)
    ensures Later(a, c)
  {
  }

  lemma LaterFromStart(r: Record)
    ensures Later(r, r)
  {
  }

  /** One record was written, and is as tidy as it was and later. */
  ghost predicate WritesTidy(st: Store, st': Store, id: nat) {
    && id in st.byID && id in st'.byID && st'.byID == st.byID[id := st'.byID[id]] && st.nextID <= st'.nextID
    && Tidy(st'.byID[id]) && Later(st.byID[id], st'.byID[id])
  }

  lemma UpdateKeepsTidy(st: Store, id: nat, c: Change, now: int)
    requires id in st.byID && Tidy(st.byID[id]) && TimelyTask(Do(c), st.byID[id])
    ensures WritesTidy(st, StoreUpdate(st, id, ChangeFn(c, now)).0, id)
  {
    hide Later;
    hide Effect;
    hide Settle;
    hide Timely;
    TidyIsNotPending(st.byID[id]);
    hide Tidy;
    TimelyKeepsTidy(st.byID[id], c, now);
    TimelyAges(st.byID[id], c, now);
  }

  lemma TidyIsNotPending(r: Record)
    requires Tidy(r)
    ensures r.status != HoldPending
  {
  }

  lemma {:induction false} TasksKeepTidy(st: Store, id: nat, tasks: seq<Task>, now: int)
    requires id in st.byID && Tidy(st.byID[id]) && Calm(tasks, st.byID[id])
    ensures WritesTidy(st, RunTasks(st, id, tasks, now).0, id)
    decreases |tasks|, if tasks != [] && tasks[0].Refund? then 1 else 0
  {
    hide Effect;
    hide StoreUpdate;
    hide Tidy;
    LaterFromStart(st.byID[id]);
    hide Later;
    if tasks == [] {
      assert st.byID[id := st.byID[id]] == st.byID;
    } else {
      match tasks[0]
      case Do(c) =>
        UpdateKeepsTidy(st, id, c, now);
        var (st', e) := StoreUpdate(st, id, ChangeFn(c, now));
        if e.None? {
          TasksKeepTidy(st', id, tasks[1..], now);
          LaterOnward(st.byID[id], st'.byID[id], RunTasks(st', id, tasks[1..], now).0.byID[id]);
        }
      case Refund(delta, outcome) =>
        var c := AddRefundOp(delta, st.nextID + 1, outcome);
        TasksKeepTidy(st.(nextID := st.nextID + 1), id, [Do(c)] + tasks[1..], now);
    }
  }

  lemma PlanIsCalm(op: Op, r: Record)
    requires !op.ApplyForce? && PlanOf(op, r).Go? && MoneyFits(r)
    ensures Calm(PlanOf(op, r).tasks, r)
  {
  }

  lemma BlueprintIsTidy(c: Creation, id: nat, now: int)
    requires Acceptable(c)
    ensures var r := Created(Blueprint(c, id, now), now);
            Tidy(r) && Calm(DoAll(AfterCreate(c)), r)
  {
    var r := Blueprint(c, id, now);
    assert Created(r, now).history == [HistoryEntry(None, r.status, "create")];
    assert MoneyFits(Created(r, now));
  }

  lemma AgedFromStart(st: Store, panel: Panel)
    ensures Aged(st, st, panel)
  {
    forall id | id in st.byID ensures Later(st.byID[id], st.byID[id]) {
      LaterFromStart(st.byID[id]);
    }
  }

  lemma AgedOnward(a: Store, b: Store, c: Store, panel: Panel)
    requires Aged(a, b, panel) && Aged(b, c, panel)
    ensures Aged(a, c, panel)
  {
    forall id | id in a.byID && !MayForce(panel, id) ensures id in c.byID && Later(a.byID[id], c.byID[id]) {
      LaterOnward(a.byID[id], b.byID[id], c.byID[id]);
    }
  }

  /** A call on one payment: the others stay, and this one stays tidy unless it may be forced. */
  lemma WriteKeepsAllTidy(st: Store, st': Store, id: nat, panel: Panel)
    requires AllTidy(st, panel) && id in st.byID
    requires if MayForce(panel, id) then OnlyAt(st, st', id) else WritesTidy(st, st', id)
    ensures AllTidy(st', panel) && Aged(st, st', panel)
  {
    hide Tidy;
    AgedFromStart(st, panel);
    hide Later;
  }

  lemma ServeKeepsTidy(st: Store, op: Op, id: nat, now: int, panel: Panel)
    requires AllTidy(st, panel) && (op.ApplyForce? ==> MayForce(panel, id))
    ensures AllTidy(Perform(st, op, id, now).0, panel) && Aged(st, Perform(st, op, id, now).0, panel)
  {
    hide Later;
    hide RunTasks;
    AgedFromStart(st, panel);
    var (st', err) := Perform(st, op, id, now);
    EveryCallIsTabled(st, op, id, now);
    if id in st.byID && Permitted(op, st.byID[id]) {
      if !MayForce(panel, id) { PermittedWritesTidy(st, op, id, now); }
      hide PlanOf;
      hide Tidy;
      WriteKeepsAllTidy(st, st', id, panel);
    }
  }

  lemma PermittedWritesTidy(st: Store, op: Op, id: nat, now: int)
    requires id in st.byID && Tidy(st.byID[id]) && !op.ApplyForce?
    ensures var st' := Perform(st, op, id, now).0; st' == st || WritesTidy(st, st', id)
  {
    if PlanOf(op, st.byID[id]).Go? {
      PlanIsCalm(op, st.byID[id]);
      hide PlanOf;
      hide Tidy;
      hide Later;
      TasksKeepTidy(st, id, PlanOf(op, st.byID[id]).tasks, now);
    }
  }

  lemma MakeKeepsTidy(st: Store, c: Creation, now: int, panel: Panel)
    requires AllTidy(st, panel)
    ensures AllTidy(CreatePayment(st, c, now).0, panel) && Aged(st, CreatePayment(st, c, now).0, panel)
  {
    hide RunTasks;
    hide Tidy;
    hide Blueprint;
    hide AfterCreate;
    hide Calm;
    AgedFromStart(st, panel);
    hide Later;
    if Acceptable(c) {
      var id := st.nextID + 1;
      BlueprintIsFresh(c, id, now);
      BlueprintIsTidy(c, id, now);
      var created := StoreCreate(st.(nextID := id), Blueprint(c, id, now), now);
      TasksKeepTidy(created, id, DoAll(AfterCreate(c)), now);
    }
  }

  lemma CallKeepsTidy(st: Store, m: Moment, panel: Panel)
    requires AllTidy(st, panel) && SparesCall(m, panel)
    ensures AllTidy(StepCall(st, m), panel) && (m.call.Clear? || Aged(st, StepCall(st, m), panel))
  {
    hide Later;
    hide Tidy;
    match m.call
    case Clear =>
    case Serve(op, id) => ServeKeepsTidy(st, op, id, m.now, panel);
    case Make(c) => MakeKeepsTidy(st, c, m.now, panel);
  }

  lemma {:induction false} CallsKeepTidy(st: Store, calls: seq<Moment>, panel: Panel)
    requires AllTidy(st, panel) && SparesCalls(calls, panel)
    ensures AllTidy(RunCalls(st, calls), panel)
    ensures NoClear(calls) ==> Aged(st, RunCalls(st, calls), panel)
    decreases |calls|
  {
    AgedFromStart(st, panel);
    if calls != [] {
      hide AllTidy;
      hide Aged;
      var st' := StepCall(st, calls[0]);
      CallKeepsTidy(st, calls[0], panel);
      CallsKeepTidy(st', calls[1..], panel);
      if NoClear(calls) {
        AgedOnward(st, st', RunCalls(st', calls[1..]), panel);
      }
    }
  }

  lemma RunIsTidy(base: nat, calls: seq<Moment>, id: nat)
    requires NeverForcedCalls(calls, id)
    ensures AllTidy(RunCalls(Empty(base), calls), AllBut(id))
    ensures id in RunCalls(Empty(base), calls).byID ==> Tidy(RunCalls(Empty(base), calls).byID[id])
  {
    hide RunCalls;
    hide Tidy;
    CallsKeepTidy(Empty(base), calls, AllBut(id));
  }

  // ------------------------------------------------------------- main results

  /**
   * Over every run, for a payment that nobody forces, the status fixes the money, edges are allowed and
   * histories are short, at each bank and whatever is forced on other payments.
   */
  lemma StatusFixesMoney(base: nat, calls: seq<Moment>, id: nat)
    requires NeverForcedCalls(calls, id) && id in RunCalls(Empty(base), calls).byID
    ensures var r := RunCalls(Empty(base), calls).byID[id];
            && r.status != HoldPending
            && (r.status == New || r.status == Authorized || r.status == Cancelled || r.status == Failed ==>
                  r.captured == 0 && r.refunded == 0)
            && (r.status == Captured ==> r.refunded == 0)
            && (r.status == PartialRefunded ==> r.refunded < r.captured)
            && (r.status == Refunded ==> r.refunded >= r.captured)
            && EdgesAllowed(r.history) && |r.history| <= 5
  {
    RunIsTidy(base, calls, id);
    hide RunCalls;
  }

  // ----------------------------------------- a refund that leaves nothing refunded

  /** The call gives money back: it is let through as a refund, and the refund succeeds. */
  predicate MovesBack(op: Op, r: Record) {
    && (op.Revoke? || op.EpayRefund? || op.FlittReverse?)
    && Permitted(op, r) && (r.status == Captured || r.status == PartialRefunded)
    && (op.Revoke? ==> op.outcome == REFUND_SUCCESS)
  }

  /** PARTIAL_REFUNDED, but with nothing refunded. */
  predicate Zeroed(st: Store, id: nat) {
    id in st.byID && st.byID[id].status == PartialRefunded && st.byID[id].refunded == 0
  }

  lemma AddCases(a: uint64, b: uint64)
    ensures Add64(a, b) == if a + b < TWO_64 then a + b else a + b - TWO_64
  {
  }

  lemma GivenBackIsZero(r: Record, amount: uint64)
    requires MoneyFits(r) && (r.status == Captured || r.status == PartialRefunded)
    ensures var after := GivenBack(r, amount);
            after.status == PartialRefunded && after.refunded == 0 <==> r.refunded + amount == TWO_64
  {
    AddCases(r.refunded, if amount == 0 then r.captured - r.refunded else amount);
    assert r.captured >= r.refunded ==> Sub64(r.captured, r.refunded) == r.captured - r.refunded;
    hide Add64;
    hide Sub64;
  }

  /** On a tidy record any call but a forced one: a refund zeroes exactly when it completes the 64-bit wrap. */
  lemma CallZeroes(st: Store, op: Op, id: nat, now: int)
    requires !op.ApplyForce? && (id in st.byID ==> MoneyFits(st.byID[id]))
    ensures Zeroed(Perform(st, op, id, now).0, id)
       <==> if id in st.byID && MovesBack(op, st.byID[id]) then st.byID[id].refunded + Asked(op) == TWO_64
            else Zeroed(st, id)
  {
    EveryCallIsTabled(st, op, id, now);
    hide Perform;
    if id in st.byID && MovesBack(op, st.byID[id]) {
      GivenBackIsZero(st.byID[id], Asked(op));
      hide GivenBack;
    }
  }

  /** The same on every store that a run reaches, for Freedom, Epay and Flitt refunds alike. */
  lemma RefundWrapsToZero(base: nat, calls: seq<Moment>, op: Op, id: nat, now: int)
    requires NeverForcedCalls(calls, id) && id in RunCalls(Empty(base), calls).byID
    requires MovesBack(op, RunCalls(Empty(base), calls).byID[id])
    ensures var st := RunCalls(Empty(base), calls);
            Zeroed(Perform(st, op, id, now).0, id) <==> st.byID[id].refunded + Asked(op) == TWO_64
  {
    RunIsTidy(base, calls, id);
    hide RunCalls;
    CallZeroes(RunCalls(Empty(base), calls), op, id, now);
  }

  /** The call made in this store moves money back on the payment. */
  predicate MovesAt(st: Store, m: Moment, id: nat) {
    m.call.Serve? && m.call.id == id && id in st.byID && MovesBack(m.call.op, st.byID[id])
  }

  /** Call `k` completes the wrap, and no later one moves the payment's money back or clears the store. */
  predicate WrappedLastAt(base: nat, calls: seq<Moment>, id: nat, k: nat) {
    && k < |calls| && WrapsAt(RunCalls(Empty(base), calls[..k]), calls[k], id)
    && forall j :: k < j < |calls| ==> QuietAt(RunCalls(Empty(base), calls[..j]), calls[j], id)
  }

  predicate WrapsAt(st: Store, m: Moment, id: nat) {
    MovesAt(st, m, id) && st.byID[id].refunded + Asked(m.call.op) == TWO_64
  }

  predicate QuietAt(st: Store, m: Moment, id: nat) {
    !m.call.Clear? && !MovesAt(st, m, id)
  }

  lemma {:induction false} RunCallsLast(st: Store, calls: seq<Moment>, m: Moment)
    ensures RunCalls(st, calls + [m]) == StepCall(RunCalls(st, calls), m)
    decreases |calls|
  {
    hide StepCall;
    if calls == [] {
      assert ([] + [m])[1..] == [];
    } else {
      assert (calls + [m])[1..] == calls[1..] + [m];
      RunCallsLast(StepCall(st, calls[0]), calls[1..], m);
    }
  }

  lemma StepZeroes(st: Store, m: Moment, id: nat)
    requires AllTidy(st, AllBut(id)) && SparesCall(m, AllBut(id))
    ensures Zeroed(StepCall(st, m), id)
       <==> if MovesAt(st, m, id) then st.byID[id].refunded + Asked(m.call.op) == TWO_64
            else !m.call.Clear? && Zeroed(st, id)
  {
    match m.call
    case Clear =>
    case Serve(op, other) => ServeZeroes(st, op, other, m.now, id);
    case Make(c) => MakeZeroes(st, c, m.now, id);
  }

  lemma ServeZeroes(st: Store, op: Op, other: nat, now: int, id: nat)
    requires (id in st.byID ==> Tidy(st.byID[id])) && (op.ApplyForce? ==> other != id)
    ensures Zeroed(Perform(st, op, other, now).0, id)
       <==> if other == id && id in st.byID && MovesBack(op, st.byID[id])
            then st.byID[id].refunded + Asked(op) == TWO_64
            else Zeroed(st, id)
  {
    if other == id { CallZeroes(st, op, id, now); } else { EveryCallIsTabled(st, op, other, now); }
    hide Perform;
    hide Permitted;
    hide After;
    hide MovesBack;
  }

  lemma {:induction false} MakeZeroes(st: Store, c: Creation, now: int, id: nat)
    requires forall k :: k in st.byID ==> k <= st.nextID
    ensures Zeroed(CreatePayment(st, c, now).0, id) <==> Zeroed(st, id)
  {
    EveryCreationIsTabled(st, c, now);
    if Acceptable(c) { BornIsWhole(c); }
    hide CreatePayment, Born, Acceptable, Verdict;
  }

  lemma BornIsWhole(c: Creation)
    requires Acceptable(c)
    ensures Born(c).status != PartialRefunded
  {
  }

  lemma {:induction false} LastWrap(base: nat, calls: seq<Moment>, m: Moment, id: nat)
    ensures var st := RunCalls(Empty(base), calls);
            var all := calls + [m];
            && (WrappedLastAt(base, all, id, |calls|) <==> WrapsAt(st, m, id))
            && forall k :: 0 <= k < |calls| ==>
                 (WrappedLastAt(base, all, id, k) <==> WrappedLastAt(base, calls, id, k) && QuietAt(st, m, id))
  {
    hide WrappedLastAt;
    WrapsHere(base, calls, m, id);
    forall k | 0 <= k < |calls|
      ensures WrappedLastAt(base, calls + [m], id, k)
         <==> WrappedLastAt(base, calls, id, k) && QuietAt(RunCalls(Empty(base), calls), m, id)
    {
      WrapsBefore(base, calls, m, id, k);
    }
  }

  lemma WrapsHere(base: nat, calls: seq<Moment>, m: Moment, id: nat)
    ensures WrappedLastAt(base, calls + [m], id, |calls|) <==> WrapsAt(RunCalls(Empty(base), calls), m, id)
  {
    hide RunCalls, WrapsAt, QuietAt;
    assert (calls + [m])[..|calls|] == calls;
  }

  lemma {:induction false} WrapsBefore(base: nat, calls: seq<Moment>, m: Moment, id: nat, k: nat)
    requires k < |calls|
    ensures WrappedLastAt(base, calls + [m], id, k)
       <==> WrappedLastAt(base, calls, id, k) && QuietAt(RunCalls(Empty(base), calls), m, id)
  {
    hide RunCalls, WrapsAt, QuietAt;
    var all := calls + [m];
    Front(calls, m, |calls|);
    Front(calls, m, k);
    forall j | 0 <= j < |calls| ensures all[j] == calls[j] && all[..j] == calls[..j] { Front(calls, m, j); }
    assert WrappedLastAt(base, all, id, k) ==> QuietAt(RunCalls(Empty(base), all[..|calls|]), all[|calls|], id);
  }

  lemma Front<T>(s: seq<T>, x: T, j: nat)
    requires j <= |s|
    ensures (s + [x])[..j] == s[..j] && (s + [x])[..|s|] == s && (s + [x])[|s|] == x
    ensures j < |s| ==> (s + [x])[j] == s[j]
  {
  }

  /**
   * A partly refunded payment has given something back - except after a run whose last movement of its
   * money was a refund that completed the 64-bit wrap to zero, and exactly then.
   */
  lemma {:induction false} PartialIsPositive(base: nat, calls: seq<Moment>, id: nat)
    requires NeverForcedCalls(calls, id)
    ensures Zeroed(RunCalls(Empty(base), calls), id) <==> exists k :: WrappedLastAt(base, calls, id, k)
    ensures var st := RunCalls(Empty(base), calls);
            id in st.byID && st.byID[id].status == PartialRefunded ==> st.byID[id].refunded < st.byID[id].captured
    decreases |calls|
  {
    RunIsTidy(base, calls, id);
    if calls != [] {
      var front, m := calls[..|calls| - 1], calls[|calls| - 1];
      assert calls == front + [m] && SparesCall(m, AllBut(id));
      assert NeverForcedCalls(front, id);
      hide RunCalls, Zeroed, StepCall, WrappedLastAt, Tidy, AllTidy, Asked, SparesCalls, SparesCall;
      PartialIsPositive(base, front, id);
      RunIsTidy(base, front, id);
      RunCallsLast(Empty(base), front, m);
      StepZeroes(RunCalls(Empty(base), front), m, id);
      WrapNext(base, front, m, id);
    }
  }

  lemma {:induction false} WrapNext(base: nat, calls: seq<Moment>, m: Moment, id: nat)
    ensures (exists k :: WrappedLastAt(base, calls + [m], id, k))
       <==> || WrapsAt(RunCalls(Empty(base), calls), m, id)
            || (QuietAt(RunCalls(Empty(base), calls), m, id) && exists k :: WrappedLastAt(base, calls, id, k))
  {
    LastWrap(base, calls, m, id);
    WrapIsInside(base, calls, id);
    WrapIsInside(base, calls + [m], id);
    hide WrappedLastAt, WrapsAt, QuietAt;
  }

  lemma {:induction false} WrapIsInside(base: nat, calls: seq<Moment>, id: nat)
    ensures forall k: nat :: WrappedLastAt(base, calls, id, k) ==> k < |calls|
  {
  }

  lemma RunFive(st: Store, a: Moment, b: Moment, c: Moment, d: Moment, e: Moment)
    ensures RunCalls(st, [a, b, c, d, e]) == StepCall(StepCall(StepCall(StepCall(StepCall(st, a), b), c), d), e)
  {
    hide StepCall;
    assert RunCalls(st, []) == st;
    RunCallsLast(st, [], a);
    RunCallsLast(st, [a], b);
    RunCallsLast(st, [a, b], c);
    RunCallsLast(st, [a, b, c], d);
    RunCallsLast(st, [a, b, c, d], e);
    hide RunCalls;
    assert [] + [a] == [a] && [a] + [b] == [a, b] && [a, b] + [c] == [a, b, c];
    assert [a, b, c] + [d] == [a, b, c, d] && [a, b, c, d] + [e] == [a, b, c, d, e];
  }

  const SMALL_REFUND := Revoke(1, REFUND_SUCCESS)
  const LARGE_REFUND := Revoke(TWO_64 - 1, REFUND_SUCCESS)

  /** And it happens: after two Freedom refunds, of 1 and of all of the 64-bit range but 1. */
  lemma RefundsMayWrap(base: nat, now: int) returns (calls: seq<Moment>)
    ensures NeverForcedCalls(calls, base + 1) && Zeroed(RunCalls(Empty(base), calls), base + 1)
  {
    var id := base + 1;
    var make, hold := Moment(Make(HoldInit(0, 1, 5, "", "token", "", "")), now), Moment(Serve(Hold, id), now);
    var capture := Moment(Serve(Op.Capture(5), id), now);
    var small, large := Moment(Serve(SMALL_REFUND, id), now), Moment(Serve(LARGE_REFUND, id), now);
    calls := [make, hold, capture, small, large];
    FiveSpare(make, hold, capture, small, large, id);
    hide RunCalls, StepCall, Zeroed, SparesCalls;
    RunFive(Empty(base), make, hold, capture, small, large);
    MadeNew(base, now);
    var s2 := HeldAndCaptured(StepCall(Empty(base), make), id, now);
    GivenBackTwice(s2, id, now);
  }

  lemma {:induction false} FiveSpare(a: Moment, b: Moment, c: Moment, d: Moment, e: Moment, id: nat)
    requires forall m :: m in [a, b, c, d, e] ==> SparesCall(m, AllBut(id))
    ensures NeverForcedCalls([a, b, c, d, e], id)
  {
    hide SparesCall;
    var all := [a, b, c, d, e];
    forall k | 0 <= k < |all| ensures SparesCall(all[k], AllBut(id)) { assert all[k] in all; }
  }

  lemma MadeNew(base: nat, now: int)
    ensures var st := StepCall(Empty(base), Moment(Make(HoldInit(0, 1, 5, "", "token", "", "")), now));
            base + 1 in st.byID && SumsOf(st.byID[base + 1]) == Sums(New, 0, 0)
  {
    var make := HoldInit(0, 1, 5, "", "token", "", "");
    EveryCreationIsTabled(Empty(base), make, now);
    hide CreatePayment;
  }

  lemma GivenBackTwice(st: Store, id: nat, now: int)
    requires id in st.byID && SumsOf(st.byID[id]) == Sums(Captured, 5, 0)
    ensures var once := StepCall(st, Moment(Serve(SMALL_REFUND, id), now));
            Zeroed(StepCall(once, Moment(Serve(LARGE_REFUND, id), now)), id)
  {
    hide Perform;
    Served(st, SMALL_REFUND, id, now, Sums(PartialRefunded, 5, 1));
    Served(StepCall(st, Moment(Serve(SMALL_REFUND, id), now)), LARGE_REFUND, id, now, Sums(PartialRefunded, 5, 0));
  }

  lemma HeldAndCaptured(st: Store, id: nat, now: int) returns (st': Store)
    requires id in st.byID && SumsOf(st.byID[id]) == Sums(New, 0, 0)
    ensures st' == StepCall(StepCall(st, Moment(Serve(Hold, id), now)), Moment(Serve(Op.Capture(5), id), now))
    ensures id in st'.byID && SumsOf(st'.byID[id]) == Sums(Captured, 5, 0)
  {
    hide Perform;
    Served(st, Hold, id, now, Sums(Authorized, 0, 0));
    var held := StepCall(st, Moment(Serve(Hold, id), now));
    Served(held, Op.Capture(5), id, now, Sums(Captured, 5, 0));
    st' := StepCall(held, Moment(Serve(Op.Capture(5), id), now));
  }

  lemma Served(st: Store, op: Op, id: nat, now: int, sums: Sums)
    requires id in st.byID && Permitted(op, st.byID[id]) && After(op, st.byID[id]) == sums
    ensures var st' := StepCall(st, Moment(Serve(op, id), now));
            id in st'.byID && SumsOf(st'.byID[id]) == sums
  {
    EveryCallIsTabled(st, op, id, now);
    hide Perform;
    hide After;
  }

  /** CANCELLED, REFUNDED and FAILED are never left, whatever is called later, short of forcing the payment. */
  lemma {:induction false} FinalIsForever(base: nat, before: seq<Moment>, after: seq<Moment>, id: nat)
    requires NeverForcedCalls(before, id) && NeverForcedCalls(after, id) && NoClear(after)
    requires var st := RunCalls(Empty(base), before); id in st.byID && Final(st.byID[id].status)
    ensures var st := RunCalls(Empty(base), before);
            var st' := RunCalls(st, after);
            && id in st'.byID
            && st'.byID[id].status == st.byID[id].status && st'.byID[id].refunds == st.byID[id].refunds
            && st'.byID[id].captured == st.byID[id].captured && st'.byID[id].refunded == st.byID[id].refunded
  {
    hide RunCalls;
    RunIsTidy(base, before, id);
    hide AllTidy;
    CallsKeepTidy(RunCalls(Empty(base), before), after, AllBut(id));
  }

  predicate RefundsTheRest(op: Op, r: Record) {
    MovesBack(op, r) && Asked(op) == 0
  }

  /** `Captured - Refunded` does not wrap, and refunding "the rest" gives back exactly what was captured. */
  lemma RefundOfTheRest(base: nat, calls: seq<Moment>, op: Op, id: nat, now: int)
    requires NeverForcedCalls(calls, id) && id in RunCalls(Empty(base), calls).byID
    requires RefundsTheRest(op, RunCalls(Empty(base), calls).byID[id])
    ensures var st := RunCalls(Empty(base), calls);
            var (st', err) := Perform(st, op, id, now);
            && Sub64(st.byID[id].captured, st.byID[id].refunded) == st.byID[id].captured - st.byID[id].refunded
            && err.None? && id in st'.byID && st'.byID[id].status == Refunded
            && st'.byID[id].refunded == st'.byID[id].captured == st.byID[id].captured
  {
    RunIsTidy(base, calls, id);
    hide RunCalls;
    var st := RunCalls(Empty(base), calls);
    var r := st.byID[id];
    RestIsAll(r);
    RestPermitted(op, r);
    EveryCallIsTabled(st, op, id, now);
    hide Perform;
    hide Permitted;
    hide After;
    hide Sub64;
  }

  lemma RestPermitted(op: Op, r: Record)
    requires RefundsTheRest(op, r)
    ensures Permitted(op, r) && After(op, r) == GivenBack(r, 0) && (r.status == Captured || r.status == PartialRefunded)
  {
    hide GivenBack;
  }

  lemma RestIsAll(r: Record)
    requires MoneyFits(r) && (r.status == Captured || r.status == PartialRefunded)
    ensures Sub64(r.captured, r.refunded) == r.captured - r.refunded
    ensures GivenBack(r, 0) == Sums(Refunded, r.captured, r.captured)
  {
  }

  /** A Hold on a payment that has left NEW is refused and writes nothing. */
  lemma HoldIsRefused(st: Store, id: nat, now: int)
    requires id in st.byID && st.byID[id].status != New && st.byID[id].status != HoldPending
    ensures Perform(st, Hold, id, now).0 == st
    ensures Perform(st, Hold, id, now).1 in {Some(AlreadyAuthorized), Some(InvalidTransition)}
  {
    EveryCallIsTabled(st, Hold, id, now);
    FirstTask(st, id, Transition(Authorized, "hold"), [Do(EnsureReference)], now);
    assert [Do(Transition(Authorized, "hold"))] + [Do(EnsureReference)]
        == [Do(Transition(Authorized, "hold")), Do(EnsureReference)];
    hide RunTasks;
  }

  /** A second Hold changes nothing, whatever calls came between the two, short of forcing the payment. */
  lemma {:induction false} RepeatedHoldChangesNothing(base: nat, before: seq<Moment>, between: seq<Moment>,
                                                      id: nat, now: int, later: int)
    requires NeverForcedCalls(before, id) && NeverForcedCalls(between, id) && NoClear(between)
    requires Perform(RunCalls(Empty(base), before), Hold, id, now).1.None?
    ensures var st := RunCalls(Perform(RunCalls(Empty(base), before), Hold, id, now).0, between);
            Perform(st, Hold, id, later).0 == st && Perform(st, Hold, id, later).1.Some?
  {
    var st0 := RunCalls(Empty(base), before);
    RunIsTidy(base, before, id);
    hide RunCalls;
    hide AllTidy;
    var m := Moment(Serve(Hold, id), now);
    var st1 := StepCall(st0, m);
    EveryCallIsTabled(st0, Hold, id, now);
    hide Perform;
    CallKeepsTidy(st0, m, AllBut(id));
    CallsKeepTidy(st1, between, AllBut(id));
    HoldIsRefused(RunCalls(st1, between), id, later);
  }

  // ------------------------------------------- atomic calls among the interleavings

  /** The steps of thread `i` alone, enough for all of its updates. */
  function Alone(i: nat, n: nat, now: int): seq<Event> {
    seq(n, _ => Advance(i, now))
  }

  function Cost(tasks: seq<Task>): nat {
    if tasks == [] then 0 else Cost(tasks[1..]) + (if tasks[0].Refund? then 2 else 1)
  }

  lemma {:induction false} IdleStays(s: Sys, i: nat, n: nat, now: int)
    requires i < |s.threads| && s.threads[i].Updating? && s.threads[i].tasks == []
    ensures Run(s, Alone(i, n, now)) == s
    decreases n
  {
    if n > 0 {
      assert Alone(i, n, now)[1..] == Alone(i, n - 1, now);
      assert Fire(s, Advance(i, now)) == s;
      IdleStays(s, i, n - 1, now);
    }
  }

  /** A call left alone makes all of its updates, one step each. */
  lemma {:induction false} AloneRunsTasks(s: Sys, i: nat, now: int)
    requires i < |s.threads| && s.threads[i].Updating?
    ensures var tasks := s.threads[i].tasks;
            Run(s, Alone(i, Cost(tasks), now)).store == RunTasks(s.store, s.threads[i].id, tasks, now).0
    decreases |s.threads[i].tasks|, if s.threads[i].tasks != [] && s.threads[i].tasks[0].Refund? then 1 else 0
  {
    hide Effect;
    hide StoreUpdate;
    var tasks, id := s.threads[i].tasks, s.threads[i].id;
    if tasks != [] {
      var n := Cost(tasks);
      var s' := Fire(s, Advance(i, now));
      assert Alone(i, n, now)[0] == Advance(i, now);
      assert Alone(i, n, now)[1..] == Alone(i, n - 1, now);
      match tasks[0]
      case Do(c) =>
        if StoreUpdate(s.store, id, ChangeFn(c, now)).1.Some? {
          IdleStays(s', i, n - 1, now);
        } else {
          AloneRunsTasks(s', i, now);
        }
      case Refund(delta, outcome) =>
        var c := AddRefundOp(delta, s.store.nextID + 1, outcome);
        assert s'.threads[i].tasks == [Do(c)] + tasks[1..];
        assert ([Do(c)] + tasks[1..])[1..] == tasks[1..];
        AloneRunsTasks(s', i, now);
    }
  }

  /** The steps of a call that nobody interrupts. */
  function Uninterrupted(s: Sys, m: Moment): seq<Event> {
    var i := |s.threads|;
    match m.call
    case Clear => [Event.Reset]
    case Serve(op, id) =>
      [Begin(op, id)] + (if |Fire(s, Begin(op, id)).threads| > i && Fire(s, Begin(op, id)).threads[i].Updating?
                         then Alone(i, Cost(Fire(s, Begin(op, id)).threads[i].tasks), m.now) else [])
    case Make(c) =>
      if !Acceptable(c) then [BeginCreate(c, m.now)]
      else [BeginCreate(c, m.now), Advance(i, m.now)] + Alone(i, Cost(DoAll(AfterCreate(c))), m.now)
  }

  /** Every atomic call is one of the interleavings, so what holds of those holds of runs of calls. */
  lemma CallIsInterleaving(s: Sys, m: Moment)
    ensures Run(s, Uninterrupted(s, m)).store == StepCall(s.store, m)
  {
    match m.call
    case Clear =>
      assert [Event.Reset][1..] == [];
    case Serve(op, id) => ServeIsInterleaving(s, op, id, m.now);
    case Make(c) => MakeIsInterleaving(s, c, m.now);
  }

  lemma ServeIsInterleaving(s: Sys, op: Op, id: nat, now: int)
    ensures Run(s, Uninterrupted(s, Moment(Serve(op, id), now))).store == Perform(s.store, op, id, now).0
  {
    var i := |s.threads|;
    var s1 := Fire(s, Begin(op, id));
    if id in s.store.byID && PlanOf(op, s.store.byID[id]).Go? {
      var tasks := PlanOf(op, s.store.byID[id]).tasks;
      hide PlanOf;
      AloneRunsTasks(s1, i, now);
      var rest := Alone(i, Cost(tasks), now);
      assert ([Begin(op, id)] + rest)[1..] == rest;
    } else {
      assert s1 == s;
      assert ([Begin(op, id)] + [])[1..] == [];
    }
  }

  lemma MakeStarts(s: Sys, c: Creation, now: int)
    requires Acceptable(c)
    ensures var id, i := s.store.nextID + 1, |s.threads|;
            var s' := Fire(Fire(s, BeginCreate(c, now)), Advance(i, now));
            && i < |s'.threads| && s'.threads[i] == Updating(id, DoAll(AfterCreate(c)))
            && s'.store == StoreCreate(s.store.(nextID := id), Blueprint(c, id, now), now)
  {
    BlueprintIsFresh(c, s.store.nextID + 1, now);
    hide Blueprint;
    hide AfterCreate;
    hide StoreCreate;
  }

  lemma MakeIsInterleaving(s: Sys, c: Creation, now: int)
    ensures Run(s, Uninterrupted(s, Moment(Make(c), now))).store == CreatePayment(s.store, c, now).0
  {
    hide Blueprint, AfterCreate, RunTasks, StoreCreate, DoAll, Cost, Alone, Fire;
    var i := |s.threads|;
    var e1, e2 := BeginCreate(c, now), Advance(i, now);
    if Acceptable(c) {
      hide Run;
      MakeStarts(s, c, now);
      AloneRunsTasks(Fire(Fire(s, e1), e2), i, now);
      RunTwo(s, e1, e2, Alone(i, Cost(DoAll(AfterCreate(c))), now));
    } else {
      assert [e1][1..] == [];
      RefusedStarts(s, c, now);
    }
  }

  lemma RefusedStarts(s: Sys, c: Creation, now: int)
    requires !Acceptable(c)
    ensures Fire(s, BeginCreate(c, now)) == s
  {
  }

  lemma RunTwo(s: Sys, e1: Event, e2: Event, rest: seq<Event>)
    ensures Run(s, [e1, e2] + rest) == Run(Fire(Fire(s, e1), e2), rest)
  {
    hide Fire;
    var s1 := Fire(s, e1);
    var s2 := Fire(s1, e2);
    assert ([e1, e2] + rest)[1..] == [e2] + rest && ([e2] + rest)[1..] == rest;
    assert Run(s, [e1, e2] + rest) == Run(s1, [e2] + rest);
    assert Run(s1, [e2] + rest) == Run(s2, rest);
  }

  /** The interleaving in which the calls of a run follow one another. */
  function Serial(s: Sys, calls: seq<Moment>): seq<Event>
    decreases |calls|
  {
    if calls == [] then []
    else
      var first := Uninterrupted(s, calls[0]);
      first + Serial(Run(s, first), calls[1..])
  }

  lemma {:induction false} CallsAreInterleaving(s: Sys, calls: seq<Moment>)
    ensures Run(s, Serial(s, calls)).store == RunCalls(s.store, calls)
    decreases |calls|
  {
    if calls != [] {
      var first := Uninterrupted(s, calls[0]);
      CallIsInterleaving(s, calls[0]);
      hide Uninterrupted;
      hide StepCall;
      CallsAreInterleaving(Run(s, first), calls[1..]);
      RunAppend(s, first, Serial(Run(s, first), calls[1..]));
    }
  }

  lemma {:induction false} SerialIsUnforced(s: Sys, calls: seq<Moment>, id: nat)
    requires NeverForcedCalls(calls, id)
    ensures NeverForced(Serial(s, calls), id)
    decreases |calls|
  {
    if calls != [] {
      hide Fire;
      hide AfterCreate;
      hide Run;
      assert SparesCall(calls[0], AllBut(id));
      SerialIsUnforced(Run(s, Uninterrupted(s, calls[0])), calls[1..], id);
    }
  }

  /** What holds of every interleaving holds of every run of atomic calls. */
  lemma CallsStaySound(base: nat, calls: seq<Moment>, id: nat)
    requires NeverForcedCalls(calls, id) && id in RunCalls(Empty(base), calls).byID
    ensures Sound(RunCalls(Empty(base), calls).byID[id], false)
    ensures RunCalls(Empty(base), calls).byID[id].paymentID == id
  {
    hide RunCalls;
    hide Run;
    hide Serial;
    hide Sound;
    hide UsedOnce;
    CallsAreInterleaving(Start(base), calls);
    SerialIsUnforced(Start(base), calls, id);
    RunIsSound(base, Serial(Start(base), calls), id);
    NumbersNeverRepeat(base, Serial(Start(base), calls));
  }
}
