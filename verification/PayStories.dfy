/** From request to answer: what a merchant reads of a payment, told by the calls that were let through. */
module PayStories {
  import opened Text
  import opened Decimal
  import opened OrdMaps
  import opened Pay
  import opened PayStore
  import opened PayRecords
  import opened PayThreads
  import opened PayOutcomes
  import opened PayRuns
  import opened StatusAnswers
  import opened AnswerFields
  import opened EpayStatus

  // ------------------------------------------------------ what a request asks for

  datatype Wish = Wish(bank: Bank, orderID: nat, kind: string, amount: nat, currency: string, contact: Contact)

  datatype Contact = Contact(email: string, phone: string, invoice: string, visibleAt: Option<int>)

  const NOBODY := Contact("", "", "", None)

  /** The request behind a constructor; a payment in no currency is in that of its bank. */
  function WishOf(c: Creation): Wish {
    match c
    case HoldInit(orderID, _, amount, currency, _, email, phone) =>
      Wish(NoBank, orderID, "card", amount, Or(currency, "KZT"), Contact(email, phone, "", None))
    case Hosted(orderID, amount, currency, email, phone) =>
      Wish(NoBank, orderID, "hosted", amount, Or(currency, "KZT"), Contact(email, phone, "", None))
    case Bind(orderID, _) => Wish(NoBank, orderID, "bind", 0, "KZT", NOBODY)
    case EpayPayment(e, _) => EpayWish(e, None)
    case EpayDecline(e, _, _) => EpayWish(e, None)
    case EpayLate(e, _, visibleAt) => EpayWish(e, visibleAt)
    case FlittCheckout(orderID, amount, currency, kind, email) =>
      Wish(Flitt, orderID, kind, amount, Or(currency, "GEL"), NOBODY.(email := email))
    case FlittDirect(orderID, amount, currency, kind, _) =>
      Wish(Flitt, orderID, kind, amount, Or(currency, "GEL"), NOBODY)
    case FlittRecurring(orderID, amount, currency, _, _) =>
      Wish(Flitt, orderID, "flitt_recurring", amount, Or(currency, "GEL"), NOBODY)
  }

  function EpayWish(e: EpayInput, visibleAt: Option<int>): Wish {
    Wish(Epay, e.orderID, e.kind, if e.amount < 0 then 0 else e.amount, Or(e.currency, "KZT"),
         Contact(e.email, e.phone, e.invoiceID, visibleAt))
  }

  function Or(v: string, otherwise: string): string {
    if v != "" then v else otherwise
  }

  predicate Grants(r: Record, w: Wish) {
    && r.bank == w.bank && r.orderID == w.orderID && r.kind == w.kind
    && r.amount == w.amount && r.currency == w.currency
    && Contact(r.userEmail, r.userPhone, r.epayInvoiceID, r.epayVisibleAt) == w.contact
  }

  lemma BlueprintGrants(c: Creation, id: nat, now: int)
    requires Acceptable(c)
    ensures Grants(Blueprint(c, id, now), WishOf(c))
  {
  }

  /** The updates that a constructor makes are not about whom the payment is for. */
  lemma ChangeKeepsContact(r: Record, c: Change, now: int)
    requires !c.SetKind? && !c.Reveal?
    ensures var r' := Changed(r, c, now).0;
            r'.kind == r.kind && r'.userEmail == r.userEmail && r'.userPhone == r.userPhone
  {
    ClosureKeepsContact(r, c, now);
    hide Effect;
  }

  lemma ClosureKeepsContact(r: Record, c: Change, now: int)
    requires !c.SetKind? && !c.Reveal?
    ensures var r' := Effect(r, c, now).rec;
            r'.kind == r.kind && r'.userEmail == r.userEmail && r'.userPhone == r.userPhone
  {
    hide Add64, Negated;
    match c
    case Transition(to, reason) =>
      match to { case Authorized => case Captured => case _ => }
    case AddRefundOp(_, _, _) =>
    case _ =>
  }

  lemma FirstChange(c: Creation)
    requires AfterCreate(c) != []
    ensures |AfterCreate(c)| == 1
    ensures var ch := AfterCreate(c)[0]; ch.EpayDeclined? || ch.FlittDeclined? || ch.Flitt3DS? || ch.Transition?
  {
  }

  lemma FirstChangeKeepsWish(r: Record, c: Creation, now: int)
    requires AfterCreate(c) != []
    ensures var r' := Changed(r, AfterCreate(c)[0], now).0;
            && SameIdentity(r, r') && r'.kind == r.kind
            && r'.userEmail == r.userEmail && r'.userPhone == r.userPhone && r'.epayVisibleAt == r.epayVisibleAt
  {
    FirstChange(c);
    hide AfterCreate;
    ChangeKeepsIdentity(r, AfterCreate(c)[0], now);
    ChangeKeepsContact(r, AfterCreate(c)[0], now);
    OnlyRevealShows(r, AfterCreate(c)[0], now);
    hide Effect, Settle;
  }

  /** The record as the constructor leaves it. */
  function Stored(c: Creation, id: nat, now: int): Record
    requires Acceptable(c)
  {
    var r := Created(Blueprint(c, id, now), now);
    if AfterCreate(c) == [] then r else Changed(r, AfterCreate(c)[0], now).0
  }

  lemma StoredGrants(c: Creation, id: nat, now: int)
    requires Acceptable(c)
    ensures var r := Stored(c, id, now); Grants(r, WishOf(c)) && r.createdAt == now && r.paymentID == id
  {
    BlueprintGrants(c, id, now);
    BlueprintIsFresh(c, id, now);
    hide Blueprint, WishOf, Effect, Settle, AfterCreate;
    if AfterCreate(c) != [] { FirstChangeKeepsWish(Created(Blueprint(c, id, now), now), c, now); }
  }

  lemma {:induction false} CreationStores(st: Store, c: Creation, now: int)
    requires Acceptable(c)
    ensures var id := st.nextID + 1;
            var order := Blueprint(c, id, now).orderID;
            CreatePayment(st, c, now).0
            == Store(st.byID[id := Stored(c, id, now)], if order != 0 then st.byOrder[order := id] else st.byOrder, id)
  {
    var id := st.nextID + 1;
    var rec := Blueprint(c, id, now);
    var created := StoreCreate(st.(nextID := id), rec, now);
    BlueprintIsFresh(c, id, now);
    if AfterCreate(c) == [] {
      hide Blueprint, AfterCreate, RunTasks;
      assert DoAll(AfterCreate(c)) == [];
      NoTask(created, id, now);
    } else {
      FirstChange(c);
      hide Blueprint, AfterCreate, RunTasks, Effect, Settle;
      assert DoAll(AfterCreate(c)) == [Do(AfterCreate(c)[0])];
      OneUpdate(created, id, AfterCreate(c)[0], now);
      var r := Changed(created.byID[id], AfterCreate(c)[0], now).0;
      assert created.byID[id := r] == st.byID[id := r];
    }
  }

  /** What a constructor stores: the one record that the request asks for, under the next number. */
  lemma CreationGrantsTheWish(st: Store, c: Creation, now: int)
    requires Acceptable(c)
    ensures var st', id := CreatePayment(st, c, now).0, st.nextID + 1;
            && id in st'.byID && Grants(st'.byID[id], WishOf(c)) && st'.byID[id].createdAt == now
            && st'.byOrder == (if WishOf(c).orderID != 0 then st.byOrder[WishOf(c).orderID := id] else st.byOrder)
  {
    CreationStores(st, c, now);
    StoredGrants(c, st.nextID + 1, now);
    BlueprintGrants(c, st.nextID + 1, now);
    hide CreatePayment, Stored, Blueprint, WishOf;
  }

  // ------------------------------------------------------ what no call ever touches

  lemma {:induction false} SerialHasNoReset(s: Sys, calls: seq<Moment>)
    requires NoClear(calls)
    ensures NoReset(Serial(s, calls))
    decreases |calls|
  {
    if calls != [] {
      hide Fire, AfterCreate, Run;
      SerialHasNoReset(Run(s, Uninterrupted(s, calls[0])), calls[1..]);
    }
  }

  /** Over every run, forced calls on whatever payment included, a stored payment keeps its identity. */
  lemma {:induction false} IdentityLasts(base: nat, before: seq<Moment>, after: seq<Moment>, id: nat)
    requires NoClear(after) && id in RunCalls(Empty(base), before).byID
    ensures var st, st' := RunCalls(Empty(base), before), RunCalls(RunCalls(Empty(base), before), after);
            id in st'.byID && SameIdentity(st.byID[id], st'.byID[id])
  {
    var first := Serial(Start(base), before);
    var s := Run(Start(base), first);
    hide Run, RunCalls, Serial, Numbers, Records;
    CallsAreInterleaving(Start(base), before);
    ReachableIsOrdered(base, first, Anyone);
    CallsAreInterleaving(s, after);
    SerialHasNoReset(s, after);
    RunKeeps(s, Serial(s, after));
    assert Outlives(s.store.byID[id], Run(s, Serial(s, after)).store.byID[id]);
  }

  // ---------------------------------------------- the status as the calls made it

  /** The calls that move a payment on, once they are let through. */
  datatype Deed = Authorizing | Capturing | Cancelling | Refunding

  /** The call succeeds on this payment and is of that kind; reversing a hold cancels, any other payment refunds. */
  predicate Does(d: Deed, st: Store, m: Moment, id: nat) {
    && m.call.Serve? && m.call.id == id && id in st.byID && Perform(st, m.call.op, id, m.now).1.None?
    && IsFor(d, m.call.op, st.byID[id].status)
  }

  predicate IsFor(d: Deed, op: Op, s: Status) {
    match d
    case Authorizing => op.Hold? || op.Wallet? || op.FlittComplete3DS?
    case Capturing => op.Capture? || op.EpayCharge? || op.FlittCapture?
    case Cancelling => op.Cancel? || op.EpayCancel? || (op.FlittReverse? && s == Authorized)
    case Refunding =>
      (op.Revoke? && op.outcome == "success") || op.EpayRefund? || (op.FlittReverse? && s != Authorized)
  }

  predicate Did(d: Deed, st: Store, calls: seq<Moment>, id: nat) {
    exists k :: 0 <= k < |calls| && Does(d, RunCalls(st, calls[..k]), calls[k], id)
  }

  /** The constructors that end in a declined card, with money held, or with money taken. */
  predicate Declines(c: Creation) {
    || c.EpayDecline?
    || ((c.FlittDirect? || c.FlittRecurring?) && (c.outcome == Declined || c.outcome == InsufficientFunds))
  }

  predicate BornHeld(c: Creation) {
    || (c.EpayPayment? && !c.requires3DS) || (c.EpayLate? && !c.captured)
    || ((c.FlittDirect? || c.FlittRecurring?) && c.outcome == Approved)
  }

  predicate BornTaken(c: Creation) { c.EpayLate? && c.captured }

  /** What has been done to the payment: authorized, captured, cancelled, refunded. */
  datatype Story = Story(held: bool, taken: bool, cancelled: bool, refunded: bool)

  ghost function StoryOf(st: Store, calls: seq<Moment>, id: nat): Story {
    Story(Did(Authorizing, st, calls, id), Did(Capturing, st, calls, id), Did(Cancelling, st, calls, id),
          Did(Refunding, st, calls, id))
  }

  /** Which status such a payment has. */
  predicate Tells(c: Creation, story: Story, s: Status) {
    if Declines(c) then s == Failed
    else if story.cancelled then s == Cancelled
    else if story.refunded then s == Refunded || s == PartialRefunded
    else if story.taken || BornTaken(c) then s == Captured
    else if story.held || BornHeld(c) then s == Authorized
    else s == New
  }

  lemma BornTells(c: Creation)
    requires Acceptable(c)
    ensures Tells(c, Story(false, false, false, false), Born(c).status)
    ensures Born(c).refunded == 0 && Born(c).captured == if BornTaken(c) then WishOf(c).amount else 0
  {
  }

  function Next(story: Story, op: Op, s: Status): Story {
    Story(story.held || IsFor(Authorizing, op, s), story.taken || IsFor(Capturing, op, s),
          story.cancelled || IsFor(Cancelling, op, s), story.refunded || IsFor(Refunding, op, s))
  }

  lemma PermittedTells(c: Creation, story: Story, op: Op, r: Record)
    requires !op.ApplyForce? && Permitted(op, r) && Tells(c, story, r.status)
    ensures Tells(c, Next(story, op, r.status), After(op, r).status)
  {
    hide Add64, Sub64;
  }

  /** A capture takes place at most once, on a hold, and takes what it names, or the whole. */
  lemma PermittedTakes(c: Creation, story: Story, op: Op, r: Record)
    requires !op.ApplyForce? && Permitted(op, r) && Tells(c, story, r.status)
    ensures After(op, r).captured == if IsFor(Capturing, op, r.status) then TakenBy(op, r.amount) else r.captured
    ensures IsFor(Capturing, op, r.status) ==> !story.taken
  {
    hide Add64, Sub64;
  }

  function TakenBy(op: Op, whole: nat): int {
    match op
    case Capture(amount) => if amount == 0 then whole else amount
    case EpayCharge(n) => if n <= 0 then whole else n
    case FlittCapture(amount) => if amount == 0 then whole else amount
    case _ => 0
  }

  predicate Here(st: Store, id: nat) { id in st.byID && id <= st.nextID }

  ghost predicate Moved(st: Store, st': Store, m: Moment, id: nat, c: Creation, story: Story)
    requires id in st.byID
  {
    && Here(st', id)
    && Tells(c, Grown(story, st, m, id), st'.byID[id].status)
    && st'.byID[id].captured == (if Does(Capturing, st, m, id) then TakenBy(m.call.op, st.byID[id].amount)
                                 else st.byID[id].captured)
    && (Does(Capturing, st, m, id) ==> !story.taken)
  }

  lemma StepTells(st: Store, m: Moment, id: nat, c: Creation, story: Story)
    requires Here(st, id) && Tells(c, story, st.byID[id].status)
    requires !m.call.Clear? && SparesCall(m, AllBut(id))
    ensures Moved(st, StepCall(st, m), m, id, c, story)
  {
    match m.call
    case Make(other) =>
      hide Moved;
      OtherMakeTells(st, m, id, c, story);
    case Serve(op, other) =>
      hide Moved;
      if other == id { ServeTells(st, m, id, c, story); } else { OtherServeTells(st, m, id, c, story); }
  }

  lemma OtherMakeTells(st: Store, m: Moment, id: nat, c: Creation, story: Story)
    requires Here(st, id) && Tells(c, story, st.byID[id].status) && m.call.Make?
    ensures Moved(st, StepCall(st, m), m, id, c, story)
  {
    MakeLeaves(st, m.call.c, m.now, id);
    hide CreatePayment, Tells, TakenBy, Perform;
  }

  lemma MakeLeaves(st: Store, c: Creation, now: int, id: nat)
    requires Here(st, id)
    ensures var st' := CreatePayment(st, c, now).0; Here(st', id) && st'.byID[id] == st.byID[id]
  {
    if Acceptable(c) {
      CreationStores(st, c, now);
      hide CreatePayment, Stored, Acceptable, Blueprint;
    }
  }

  lemma OtherServeTells(st: Store, m: Moment, id: nat, c: Creation, story: Story)
    requires Here(st, id) && Tells(c, story, st.byID[id].status) && m.call.Serve? && m.call.id != id
    ensures Moved(st, StepCall(st, m), m, id, c, story)
  {
    EveryCallIsTabled(st, m.call.op, m.call.id, m.now);
    hide Perform, Permitted, After, Tells, TakenBy, IsFor;
  }

  lemma ServeTells(st: Store, m: Moment, id: nat, c: Creation, story: Story)
    requires Here(st, id) && Tells(c, story, st.byID[id].status) && m.call.Serve? && m.call.id == id
    requires !m.call.op.ApplyForce?
    ensures Moved(st, StepCall(st, m), m, id, c, story)
  {
    var op, r := m.call.op, st.byID[id];
    hide Permitted, After, IsFor, Tells, TakenBy, Perform;
    EveryCallIsTabled(st, op, id, m.now);
    DoesWhenPermitted(st, m, id);
    hide Does;
    if Permitted(op, r) {
      PermittedTells(c, story, op, r);
      PermittedTakes(c, story, op, r);
      assert Next(story, op, r.status) == Grown(story, st, m, id);
    } else {
      assert Grown(story, st, m, id) == story;
    }
    hide Grown, Next;
  }

  lemma {:induction false} DoesWhenPermitted(st: Store, m: Moment, id: nat)
    requires id in st.byID && m.call.Serve? && m.call.id == id
    ensures forall d :: Does(d, st, m, id)
                   <==> Permitted(m.call.op, st.byID[id]) && IsFor(d, m.call.op, st.byID[id].status)
  {
    EveryCallIsTabled(st, m.call.op, id, m.now);
    hide Perform, Permitted, After, IsFor;
  }

  function Grown(story: Story, st: Store, m: Moment, id: nat): Story {
    Story(story.held || Does(Authorizing, st, m, id), story.taken || Does(Capturing, st, m, id),
          story.cancelled || Does(Cancelling, st, m, id), story.refunded || Does(Refunding, st, m, id))
  }

  lemma {:induction false} DidLast(d: Deed, st: Store, calls: seq<Moment>, m: Moment, id: nat)
    ensures Did(d, st, calls + [m], id) <==> Did(d, st, calls, id) || Does(d, RunCalls(st, calls), m, id)
  {
    hide RunCalls, Does;
    var all := calls + [m];
    forall k | 0 <= k <= |calls| ensures all[..k] == calls[..k] { Front(calls, m, k); }
    assert all[|calls|] == m && calls[..|calls|] == calls;
    if Did(d, st, calls, id) {
      var k :| 0 <= k < |calls| && Does(d, RunCalls(st, calls[..k]), calls[k], id);
      assert all[..k] == calls[..k] && all[k] == calls[k];
    }
    if Does(d, RunCalls(st, calls), m, id) {
      assert all[..|calls|] == calls[..|calls|];
    }
  }

  lemma StoryGrows(st: Store, calls: seq<Moment>, m: Moment, id: nat)
    ensures StoryOf(st, calls + [m], id) == Grown(StoryOf(st, calls, id), RunCalls(st, calls), m, id)
  {
    hide Did, Does, RunCalls;
    DidLast(Authorizing, st, calls, m, id);
    DidLast(Capturing, st, calls, m, id);
    DidLast(Cancelling, st, calls, m, id);
    DidLast(Refunding, st, calls, m, id);
  }

  /** The sum taken is that of the one capture, or what the constructor took. */
  ghost predicate Took(c: Creation, st: Store, calls: seq<Moment>, id: nat, captured: int) {
    && (forall k :: 0 <= k < |calls| && Does(Capturing, RunCalls(st, calls[..k]), calls[k], id) ==>
          captured == TakenBy(calls[k].call.op, WishOf(c).amount))
    && (!Did(Capturing, st, calls, id) ==> captured == if BornTaken(c) then WishOf(c).amount else 0)
  }

  lemma {:induction false} TookLast(c: Creation, st: Store, calls: seq<Moment>, m: Moment, id: nat, was: int, is_: int)
    requires Took(c, st, calls, id, was)
    requires var now := Does(Capturing, RunCalls(st, calls), m, id);
             && (now ==> !Did(Capturing, st, calls, id) && is_ == TakenBy(m.call.op, WishOf(c).amount))
             && (!now ==> is_ == was)
    ensures Took(c, st, calls + [m], id, is_)
  {
    hide RunCalls, IsFor, Perform, TakenBy, WishOf, BornTaken;
    DidLast(Capturing, st, calls, m, id);
    var all := calls + [m];
    forall k | 0 <= k < |all| && Does(Capturing, RunCalls(st, all[..k]), all[k], id)
      ensures is_ == TakenBy(all[k].call.op, WishOf(c).amount)
    {
      Front(calls, m, k);
      if k < |calls| {
        assert Does(Capturing, RunCalls(st, calls[..k]), calls[k], id);
      } else {
        assert all[..k] == calls;
      }
    }
  }

  ghost predicate Faithfully(c: Creation, st: Store, calls: seq<Moment>, id: nat) {
    var st' := RunCalls(st, calls);
    && Here(st', id) && Tells(c, StoryOf(st, calls, id), st'.byID[id].status)
    && Took(c, st, calls, id, st'.byID[id].captured)
  }

  lemma {:induction false} RunTells(c: Creation, st: Store, calls: seq<Moment>, id: nat)
    requires Acceptable(c) && Here(st, id) && NoClear(calls) && NeverForcedCalls(calls, id)
    requires SumsOf(st.byID[id]) == Born(c) && st.byID[id].amount == WishOf(c).amount
    ensures Faithfully(c, st, calls, id) && RunCalls(st, calls).byID[id].amount == WishOf(c).amount
    decreases |calls|
  {
    if calls == [] {
      BornTells(c);
    } else {
      var front, m := calls[..|calls| - 1], calls[|calls| - 1];
      assert calls == front + [m] && !m.call.Clear? && SparesCall(m, AllBut(id));
      assert NoClear(front) && NeverForcedCalls(front, id);
      RunTells(c, st, front, id);
      RunCallsLast(st, front, m);
      StoryGrows(st, front, m, id);
      hide RunCalls, Did, Does, Tells, TakenBy, WishOf, Born, SparesCall, SparesCalls, NoClear, StepCall;
      StepTells(RunCalls(st, front), m, id, c, StoryOf(st, front, id));
      assert Moved(RunCalls(st, front), RunCalls(st, calls), m, id, c, StoryOf(st, front, id));
      StepKeepsAmount(RunCalls(st, front), m, id);
      TookLast(c, st, front, m, id, RunCalls(st, front).byID[id].captured, RunCalls(st, calls).byID[id].captured);
    }
  }

  lemma StepKeepsAmount(st: Store, m: Moment, id: nat)
    requires Here(st, id) && !m.call.Clear?
    ensures id in StepCall(st, m).byID && StepCall(st, m).byID[id].amount == st.byID[id].amount
  {
    match m.call
    case Make(other) =>
      MakeLeaves(st, other, m.now, id);
      hide CreatePayment;
    case Serve(op, other) =>
      EveryCallIsTabled(st, op, other, m.now);
      if other == id && PlanOf(op, st.byID[id]).Go? {
        TasksKeepIdentity(st, id, PlanOf(op, st.byID[id]).tasks, m.now);
      }
      hide PlanOf, RunTasks, Permitted, After;
  }

  lemma {:induction false} TasksKeepIdentity(st: Store, id: nat, tasks: seq<Task>, now: int)
    requires id in st.byID
    ensures var st' := RunTasks(st, id, tasks, now).0; id in st'.byID && SameIdentity(st.byID[id], st'.byID[id])
    decreases |tasks|, if tasks != [] && tasks[0].Refund? then 1 else 0
  {
    hide Effect, Settle;
    if tasks != [] {
      match tasks[0]
      case Do(c) =>
        ChangeKeepsIdentity(st.byID[id], c, now);
        var (st', e) := StoreUpdate(st, id, ChangeFn(c, now));
        if e.None? { TasksKeepIdentity(st', id, tasks[1..], now); }
      case Refund(delta, outcome) =>
        var c := AddRefundOp(delta, st.nextID + 1, outcome);
        TasksKeepIdentity(st.(nextID := st.nextID + 1), id, [Do(c)] + tasks[1..], now);
    }
  }

  lemma StoredIsBorn(c: Creation, id: nat, now: int)
    requires Acceptable(c)
    ensures SumsOf(Stored(c, id, now)) == Born(c)
  {
    BlueprintStands(c, id, now);
    if AfterCreate(c) != [] { FirstChangeMoves(c, id, now); }
    hide Blueprint, AfterCreate, Effect, Settle, Born;
  }

  // --------------------------------------------------------------- main results

  /** The number that a constructor called in this store gives the payment, and the store it leaves. */
  function NewNumber(base: nat, before: seq<Moment>): nat { RunCalls(Empty(base), before).nextID + 1 }

  function Opened(base: nat, before: seq<Moment>, c: Creation, at: int): Store {
    StepCall(RunCalls(Empty(base), before), Moment(Make(c), at))
  }

  /** The calls that capture all of a payment. */
  predicate CapturesAll(op: Op) {
    op == Op.Capture(0) || op == FlittCapture(0) || (op.EpayCharge? && op.intAmount <= 0)
  }

  predicate LetThrough(st: Store, op: Op, id: nat, now: int) { Perform(st, op, id, now).1.None? }

  predicate HasTaken(st: Store, id: nat, amount: int) {
    id in st.byID && st.byID[id].status == Captured && st.byID[id].captured == amount
  }

  lemma AllIsTaken(st: Store, op: Op, id: nat, now: int)
    requires CapturesAll(op) && LetThrough(st, op, id, now)
    ensures id in st.byID && HasTaken(Perform(st, op, id, now).0, id, st.byID[id].amount)
  {
    EveryCallIsTabled(st, op, id, now);
    hide Perform, Permitted;
  }

  /**
   * The whole of a payment captured, however long after its constructor and whatever was called or forced in
   * between, is the amount that the constructor was asked for.
   */
  lemma WholeCaptureTakesTheWish(base: nat, before: seq<Moment>, c: Creation, at: int, after: seq<Moment>,
                                 op: Op, now: int)
    requires Acceptable(c) && NoClear(after) && CapturesAll(op)
    requires LetThrough(RunCalls(Opened(base, before, c, at), after), op, NewNumber(base, before), now)
    ensures var st := RunCalls(Opened(base, before, c, at), after);
            HasTaken(Perform(st, op, NewNumber(base, before), now).0, NewNumber(base, before), WishOf(c).amount)
  {
    hide RunCalls, CreatePayment, Perform, WishOf, LetThrough, HasTaken, NoClear, CapturesAll, Acceptable;
    var made := Moment(Make(c), at);
    CreationGrantsTheWish(RunCalls(Empty(base), before), c, at);
    RunCallsLast(Empty(base), before, made);
    IdentityLasts(base, before + [made], after, NewNumber(base, before));
    AllIsTaken(RunCalls(Opened(base, before, c, at), after), op, NewNumber(base, before), now);
  }

  /**
   * From its constructor on, whatever is called on it and on others short of forcing it, a payment stands
   * where the calls that were let through have brought it, with the sum taken that the one capture named.
   */
  lemma StatusTellsTheStory(base: nat, before: seq<Moment>, c: Creation, at: int, after: seq<Moment>)
    requires Acceptable(c) && NoClear(after) && NeverForcedCalls(after, NewNumber(base, before))
    ensures var id, st := NewNumber(base, before), Opened(base, before, c, at);
            var st' := RunCalls(st, after);
            && id in st.byID && Grants(st.byID[id], WishOf(c)) && id in st'.byID
            && st'.byID[id].amount == WishOf(c).amount
            && Tells(c, StoryOf(st, after, id), st'.byID[id].status)
            && Took(c, st, after, id, st'.byID[id].captured)
  {
    var st0, id := RunCalls(Empty(base), before), NewNumber(base, before);
    CreationGrantsTheWish(st0, c, at);
    CreationStores(st0, c, at);
    StoredIsBorn(c, id, at);
    hide RunCalls, CreatePayment, Stored, Born, WishOf, Grants, Acceptable, Blueprint, Tells, Took, StoryOf, NoClear,
         SparesCalls;
    RunTells(c, Opened(base, before, c, at), after, id);
  }

  /** What `pg_payment_status` says of a payment with that story. */
  function FreedomWord(c: Creation, story: Story): string {
    if Declines(c) then "failed"
    else if story.cancelled then "revoked"
    else if story.held || story.taken || story.refunded || BornHeld(c) || BornTaken(c) then "success"
    else "process"
  }

  lemma WordOfStatus(c: Creation, story: Story, s: Status)
    requires Tells(c, story, s)
    ensures PayToFreedomStatus(s) == FreedomWord(c, story)
  {
  }

  /** What a Freedom merchant reads: the word for the story, the amount asked for and the sum taken. */
  lemma {:induction false} FreedomAnswerTellsTheStory(base: nat, before: seq<Moment>, c: Creation, at: int,
                                                      after: seq<Moment>, hidden: bool, fmt: TimeFormat)
    requires Acceptable(c) && NoClear(after) && NeverForcedCalls(after, NewNumber(base, before))
    requires NewNumber(base, before) in RunCalls(Opened(base, before, c, at), after).byID
    ensures var id, st := NewNumber(base, before), Opened(base, before, c, at);
            var ps := StatusFields(RunCalls(st, after).byID[id], hidden, fmt);
            && TextAt(ps, "pg_payment_status") == Some(FreedomWord(c, StoryOf(st, after, id)))
            && Reads(ps, "pg_amount", WishOf(c).amount)
            && (id < TWO_63 ==> Reads(ps, "pg_payment_id", id) && Reads(ps, "pg_reference", 613554000000 + id))
            && (0 < WishOf(c).orderID < TWO_64 ==> Reads(ps, "pg_order_id", WishOf(c).orderID))
            && exists captured :: Reads(ps, "pg_clearing_amount", captured) && Took(c, st, after, id, captured)
  {
    hide RunCalls, Opened, StatusFields, WishOf, Tells, Took, FreedomWord, TextAt, NoClear;
    StatusTellsTheStory(base, before, c, at, after);
    var id, st := NewNumber(base, before), Opened(base, before, c, at);
    var r := RunCalls(st, after).byID[id];
    WordOfStatus(c, StoryOf(st, after, id), r.status);
    StatusIsShown(r, hidden, fmt);
    AnswerShowsNumbers(r, hidden, fmt);
    OwnReferenceStays(base, before, c, at, after);
  }

  /** The payment keeps its number, its order and the reference made from the number, whatever is called or forced. */
  lemma {:induction false} OwnReferenceStays(base: nat, before: seq<Moment>, c: Creation, at: int, after: seq<Moment>)
    requires Acceptable(c) && NoClear(after)
    ensures var id, st' := NewNumber(base, before), RunCalls(Opened(base, before, c, at), after);
            && id in st'.byID && st'.byID[id].paymentID == id && st'.byID[id].reference == 613554000000 + id
            && st'.byID[id].orderID == WishOf(c).orderID
  {
    var id, made := NewNumber(base, before), Moment(Make(c), at);
    CreationGrantsTheWish(RunCalls(Empty(base), before), c, at);
    RunCallsLast(Empty(base), before, made);
    hide RunCalls, CreatePayment, WishOf, Run, Serial;
    IdentityLasts(base, before + [made], after, id);
    var all := before + [made];
    var first := Serial(Start(base), all);
    CallsAreInterleaving(Start(base), all);
    var s := Run(Start(base), first);
    CallsAreInterleaving(s, after);
    RunAppend(Start(base), first, Serial(s, after));
    HistoryIsFaithful(base, first + Serial(s, after), id);
    NumbersNeverRepeat(base, first + Serial(s, after));
  }

  /** The check-status code of an Epay operation with that story. */
  function EpayCode(c: Creation, story: Story): string {
    if Declines(c) then "FAILED"
    else if story.cancelled then "CANCEL"
    else if story.refunded then "REFUND"
    else if story.taken || BornTaken(c) then "CHARGE"
    else if story.held || BornHeld(c) then "AUTH"
    else "NEW"
  }

  lemma CodeOfStatus(c: Creation, story: Story, s: Status)
    requires Tells(c, story, s)
    ensures PayStatusToEpay(s) == EpayCode(c, story)
  {
  }

  /** What an Epay merchant reads once the operation is shown. */
  lemma EpayAnswerTellsTheStory(base: nat, before: seq<Moment>, c: Creation, at: int, after: seq<Moment>, now: int)
    requires Acceptable(c) && NoClear(after) && NeverForcedCalls(after, NewNumber(base, before))
    ensures var id, st := NewNumber(base, before), Opened(base, before, c, at);
            var answer := StatusByID(RunCalls(st, after), id, now);
            answer.Some? ==> answer.value == EpayCode(c, StoryOf(st, after, id))
  {
    hide RunCalls, Opened, WishOf, Tells, Took, EpayCode, NoClear;
    StatusTellsTheStory(base, before, c, at, after);
    var id, st := NewNumber(base, before), Opened(base, before, c, at);
    CodeOfStatus(c, StoryOf(st, after, id), RunCalls(st, after).byID[id].status);
  }

  // --------------------------------------------------------- refusals, kinds, times

  /** What a constructor will not do without. */
  predicate Lacks(c: Creation) {
    match c
    case HoldInit(_, userID, amount, _, token, _, _) => token == "" || amount == 0 || userID == 0
    case Hosted(orderID, amount, _, _, _) => orderID == 0 || amount == 0
    case Bind(_, userID) => userID == 0
    case EpayPayment(e, _) => e.amount < 0 || (e.amount == 0 && !e.bindOnly)
    case EpayDecline(e, _, _) => e.amount < 0 || (e.amount == 0 && !e.bindOnly)
    case EpayLate(e, _, _) => e.amount < 0 || (e.amount == 0 && !e.bindOnly)
    case FlittCheckout(orderID, amount, _, _, _) => orderID == 0 || amount == 0
    case FlittDirect(_, amount, _, _, _) => amount == 0
    case FlittRecurring(_, amount, _, rectoken, _) => amount == 0 || rectoken == ""
  }

  /** Why a constructor reports an error: bad input, or a Flitt card declined on the spot. */
  lemma {:induction false} CreationSaysWhy(st: Store, c: Creation, now: int)
    requires forall id :: id in st.byID ==> id <= st.nextID
    ensures CreatePayment(st, c, now).1
         == if Lacks(c) then Some(BadInput)
            else if Declines(c) && WishOf(c).bank == Flitt then Some(FlittDeclinedError)
            else None
  {
    EveryCreationIsTabled(st, c, now);
    hide CreatePayment, Born;
  }

  /** The times and the notes on a payment. */
  datatype Notes = Notes(authorizedAt: Option<int>, capturedAt: Option<int>, cardToken: string,
                         declineCode: int, declineReason: string, lastError: string)

  function NotesOf(r: Record): Notes {
    Notes(r.authorizedAt, r.capturedAt, r.cardToken, r.epayDeclineCode, r.epayDeclineReason, r.lastError)
  }

  lemma BlueprintNotes(c: Creation, id: nat, now: int)
    requires Acceptable(c)
    ensures var r := Created(Blueprint(c, id, now), now);
            && NotesOf(r) == Notes(if c.EpayLate? then Some(now) else None, if BornTaken(c) then Some(now) else None,
                                   r.cardToken, 0, "", "")
            && (c.HoldInit? ==> r.cardToken == c.cardToken) && (c.FlittRecurring? ==> r.cardToken == c.rectoken)
  {
  }

  lemma MoveNotes(r: Record, c: Change, now: int)
    requires r.status == New
    requires c.EpayDeclined? || c.FlittDeclined? || c.Flitt3DS? || (c.Transition? && c.to == Authorized)
    ensures NotesOf(Changed(r, c, now).0)
         == if c.EpayDeclined? then NotesOf(r).(declineCode := c.code, declineReason := c.why)
            else if c.FlittDeclined? then NotesOf(r).(lastError := c.why)
            else if c.Flitt3DS? then NotesOf(r)
            else NotesOf(r).(authorizedAt := Some(now))
  {
  }

  lemma FirstChangeNotes(c: Creation)
    requires AfterCreate(c) != []
    ensures var ch := AfterCreate(c)[0];
            && (ch.Transition? ==> ch.to == Authorized && BornHeld(c) && !c.EpayLate?)
            && (ch.EpayDeclined? ==> c.EpayDecline? && ch.code == c.code && ch.why == c.why)
            && (ch.FlittDeclined? ==> Declines(c) && !c.EpayDecline? && ch.why == FlittWord(c))
            && (ch.Flitt3DS? ==> !BornHeld(c) && !Declines(c))
  {
  }

  /** What a Flitt constructor notes as the error of the card. */
  function FlittWord(c: Creation): string {
    if c.FlittDirect? || c.FlittRecurring? then
      match c.outcome
      case Declined => "declined"
      case InsufficientFunds => "insufficient_funds"
      case _ => ""
    else ""
  }

  lemma NothingFollows(c: Creation)
    requires AfterCreate(c) == []
    ensures !Declines(c) && (BornHeld(c) ==> c.EpayLate?)
  {
  }

  /** When money was held and taken, the card it came from, and what a declined card leaves on its payment. */
  lemma CreationIsNoted(c: Creation, id: nat, now: int)
    requires Acceptable(c)
    ensures var r := Stored(c, id, now);
            && NotesOf(r) == Notes(if BornHeld(c) || BornTaken(c) then Some(now) else None,
                                   if BornTaken(c) then Some(now) else None, r.cardToken,
                                   if c.EpayDecline? then c.code else 0, if c.EpayDecline? then c.why else "",
                                   if Declines(c) then FlittWord(c) else "")
            && (c.HoldInit? ==> r.cardToken == c.cardToken) && (c.FlittRecurring? ==> r.cardToken == c.rectoken)
  {
    BlueprintNotes(c, id, now);
    if AfterCreate(c) == [] {
      NothingFollows(c);
    } else {
      BlueprintWaits(c, id, now);
      FirstChange(c);
      FirstChangeNotes(c);
      hide AfterCreate;
      MoveNotes(Created(Blueprint(c, id, now), now), AfterCreate(c)[0], now);
    }
    hide Blueprint, AfterCreate, Effect, Settle, FlittWord;
  }

  /** Why a call is refused. */
  lemma RefusalSaysWhy(st: Store, op: Op, id: nat, now: int)
    ensures var err := Perform(st, op, id, now).1;
            && (err == Some(NotFound) <==> id !in st.byID)
            && (id in st.byID && err.Some? ==>
                  err.value == if op.Hold? && st.byID[id].status in {Authorized, Captured} then AlreadyAuthorized
                               else if op.Hold? || op.Wallet? then InvalidTransition
                               else InvalidState)
  {
    if id in st.byID {
      EveryCallIsTabled(st, op, id, now);
      if !Permitted(op, st.byID[id]) { RefusedAtOnce(st, op, id, now); }
      hide Perform, After;
    }
  }

  lemma RefusedAtOnce(st: Store, op: Op, id: nat, now: int)
    requires id in st.byID && !Permitted(op, st.byID[id])
    ensures Perform(st, op, id, now).1
         == Some(if op.Hold? && st.byID[id].status in {Authorized, Captured} then AlreadyAuthorized
                 else if op.Hold? || op.Wallet? then InvalidTransition
                 else InvalidState)
  {
    if op.Hold? || op.Wallet? {
      var reason := if op.Hold? then "hold" else "wallet pay";
      var rest := PlanRest(op);
      AuthorizingFails(st, id, reason, rest, now);
      PlanStarts(op, st.byID[id]);
      hide RunTasks, PlanRest;
    } else if op.EpayReveal? {
      OneTask(st, id, Change.Reveal, now);
      hide RunTasks;
    }
  }

  /** The updates of a call after the one that authorizes. */
  function PlanRest(op: Op): seq<Task> {
    (if op.Wallet? && op.kind != "" then [Do(SetKind(op.kind))] else []) + [Do(EnsureReference)]
  }

  lemma PlanStarts(op: Op, r: Record)
    requires op.Hold? || op.Wallet?
    ensures PlanOf(op, r)
         == if op.Hold? && r.status in {Authorized, Captured} then Answer(Some(AlreadyAuthorized))
            else Go([Do(Transition(Authorized, if op.Hold? then "hold" else "wallet pay"))] + PlanRest(op))
  {
  }

  lemma AuthorizingFails(st: Store, id: nat, reason: string, rest: seq<Task>, now: int)
    requires id in st.byID && st.byID[id].status != New && st.byID[id].status != HoldPending
    ensures RunTasks(st, id, [Do(Transition(Authorized, reason))] + rest, now).1 == Some(InvalidTransition)
  {
    FirstTask(st, id, Transition(Authorized, reason), rest, now);
    TransitionMoves(st.byID[id], Authorized, reason, now);
    hide RunTasks, Effect, Settle;
  }

  datatype Marks = Marks(kind: string, authorizedAt: Option<int>)

  function MarksOf(r: Record): Marks { Marks(r.kind, r.authorizedAt) }

  predicate Marking(c: Change) { c.SetKind? || (c.Transition? && c.to == Authorized) }

  lemma ChangeMarks(r: Record, c: Change, now: int)
    ensures !Marking(c) ==> MarksOf(Changed(r, c, now).0) == MarksOf(r)
    ensures c.SetKind? ==> MarksOf(Changed(r, c, now).0) == MarksOf(r).(kind := c.kind)
    ensures Marking(c) && c.Transition? ==>
              MarksOf(Changed(r, c, now).0)
              == if r.status in {New, HoldPending} then MarksOf(r).(authorizedAt := Some(now)) else MarksOf(r)
  {
    hide Add64, Negated;
  }

  predicate Unmarking(t: Task) { t.Do? ==> !Marking(t.c) }

  lemma {:induction false} TasksKeepMarks(st: Store, id: nat, tasks: seq<Task>, now: int)
    requires id in st.byID && forall k :: 0 <= k < |tasks| ==> Unmarking(tasks[k])
    ensures var st' := RunTasks(st, id, tasks, now).0; id in st'.byID && MarksOf(st'.byID[id]) == MarksOf(st.byID[id])
    decreases |tasks|, if tasks != [] && tasks[0].Refund? then 1 else 0
  {
    hide Effect, Settle, Marking;
    if tasks != [] {
      assert Unmarking(tasks[0]);
      match tasks[0]
      case Do(c) =>
        ChangeMarks(st.byID[id], c, now);
        var (st', e) := StoreUpdate(st, id, ChangeFn(c, now));
        if e.None? { TasksKeepMarks(st', id, tasks[1..], now); }
      case Refund(delta, outcome) =>
        var c := AddRefundOp(delta, st.nextID + 1, outcome);
        assert Unmarking(Do(c)) by { assert !Marking(c) by { NotMarking(c); } }
        TasksKeepMarks(st.(nextID := st.nextID + 1), id, [Do(c)] + tasks[1..], now);
    }
  }

  lemma NotMarking(c: Change)
    requires c.AddRefundOp?
    ensures !Marking(c)
  {
  }

  /** The kind changes only with a wallet that names one, the time of authorization only when a call authorizes. */
  function MarksAfter(op: Op, r: Record, now: int): Marks {
    if r.status != New && r.status != HoldPending then MarksOf(r)
    else
      match op
      case Hold => MarksOf(r).(authorizedAt := Some(now))
      case Wallet(kind) => Marks(Or(kind, r.kind), Some(now))
      case FlittComplete3DS =>
        if r.bank == Flitt && r.status == New then MarksOf(r).(authorizedAt := Some(now)) else MarksOf(r)
      case _ => MarksOf(r)
  }

  lemma CallMarks(st: Store, op: Op, id: nat, now: int)
    requires id in st.byID
    ensures var st' := Perform(st, op, id, now).0;
            id in st'.byID && MarksOf(st'.byID[id]) == MarksAfter(op, st.byID[id], now)
  {
    var r := st.byID[id];
    match op
    case Hold => HoldMarks(st, id, now);
    case Wallet(kind) => WalletMarks(st, id, kind, now);
    case FlittComplete3DS =>
      if r.bank == Flitt && r.status == New {
        AuthorizingMarks(st, id, "flitt 3ds step2", [], now);
        assert [Do(Transition(Authorized, "flitt 3ds step2"))] + [] == [Do(Transition(Authorized, "flitt 3ds step2"))];
        NoTask(st, id, now);
        hide RunTasks;
      }
    case _ => OtherMarks(st, op, id, now);
  }

  lemma {:induction false} OtherMarks(st: Store, op: Op, id: nat, now: int)
    requires id in st.byID && !op.Hold? && !op.Wallet? && !op.FlittComplete3DS?
    ensures var st' := Perform(st, op, id, now).0; id in st'.byID && MarksOf(st'.byID[id]) == MarksOf(st.byID[id])
  {
    if PlanOf(op, st.byID[id]).Go? {
      TasksKeepMarks(st, id, PlanOf(op, st.byID[id]).tasks, now);
      hide RunTasks;
    }
  }

  /** The first update authorizes, the rest runs on what it left. */
  lemma AuthorizingMarks(st: Store, id: nat, reason: string, rest: seq<Task>, now: int)
    requires id in st.byID
    ensures var c := Transition(Authorized, reason);
            var (r, e) := Changed(st.byID[id], c, now);
            var (st', err) := RunTasks(st, id, [Do(c)] + rest, now);
            && id in st'.byID
            && (st.byID[id].status in {New, HoldPending} ==>
                  && MarksOf(r) == MarksOf(st.byID[id]).(authorizedAt := Some(now))
                  && (st', err) == RunTasks(st.(byID := st.byID[id := r]), id, rest, now))
            && (st.byID[id].status !in {New, HoldPending} ==> st' == st)
  {
    var c := Transition(Authorized, reason);
    FirstTask(st, id, c, rest, now);
    TransitionMoves(st.byID[id], Authorized, reason, now);
    ChangeMarks(st.byID[id], c, now);
    hide Effect, Settle, Marking;
    assert st.byID[id := st.byID[id]] == st.byID;
    var r := Changed(st.byID[id], c, now).0;
    TasksStay(st.(byID := st.byID[id := r]), id, rest, now);
    hide RunTasks;
  }

  lemma TasksStay(st: Store, id: nat, tasks: seq<Task>, now: int)
    requires id in st.byID
    ensures id in RunTasks(st, id, tasks, now).0.byID
  {
    TasksKeepIdentity(st, id, tasks, now);
    hide RunTasks;
  }

  lemma {:induction false} HoldMarks(st: Store, id: nat, now: int)
    requires id in st.byID
    ensures var st' := Perform(st, Hold, id, now).0;
            id in st'.byID && MarksOf(st'.byID[id]) == MarksAfter(Hold, st.byID[id], now)
  {
    var r := Changed(st.byID[id], Transition(Authorized, "hold"), now).0;
    AuthorizingMarks(st, id, "hold", [Do(EnsureReference)], now);
    assert [Do(Transition(Authorized, "hold"))] + [Do(EnsureReference)]
        == [Do(Transition(Authorized, "hold")), Do(EnsureReference)];
    TasksKeepMarks(st.(byID := st.byID[id := r]), id, [Do(EnsureReference)], now);
    hide RunTasks, Effect, Settle;
  }

  lemma {:induction false} WalletMarks(st: Store, id: nat, kind: string, now: int)
    requires id in st.byID
    ensures var st' := Perform(st, Wallet(kind), id, now).0;
            id in st'.byID && MarksOf(st'.byID[id]) == MarksAfter(Wallet(kind), st.byID[id], now)
  {
    var first, last := [Do(Transition(Authorized, "wallet pay"))], [Do(EnsureReference)];
    var kinds := if kind != "" then [Do(SetKind(kind))] else [];
    var r := Changed(st.byID[id], Transition(Authorized, "wallet pay"), now).0;
    var held := st.(byID := st.byID[id := r]);
    assert first + (kinds + last) == first + kinds + last;
    AuthorizingMarks(st, id, "wallet pay", kinds + last, now);
    hide Effect, Settle;
    if kind != "" {
      FirstTask(held, id, SetKind(kind), last, now);
      ChangeMarks(r, SetKind(kind), now);
      QuietMoves(r, SetKind(kind), now);
      TasksKeepMarks(held.(byID := held.byID[id := Changed(r, SetKind(kind), now).0]), id, last, now);
    } else {
      assert kinds + last == last;
      TasksKeepMarks(held, id, last, now);
    }
    hide RunTasks;
  }
}
