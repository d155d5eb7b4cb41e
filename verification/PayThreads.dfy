/** The service under concurrent calls: every `Get`, counter step and `Update` is a step of its own. */
module PayThreads {
  import opened Text
  import opened Decimal
  import opened Pay
  import opened PayStore
  import opened PayRecords

  /** A call in flight: a constructor that holds its unsaved record, or a call with updates still to make. */
  datatype Thread = Creating(rec: Record, rest: seq<Task>) | Updating(id: nat, tasks: seq<Task>)

  /** A number taken from the counter: for a payment, or for a refund of the named payment. */
  datatype Issue = Issue(number: nat, refundOf: Option<nat>)

  datatype Sys = Sys(store: Store, threads: seq<Thread>, issued: seq<Issue>)

  datatype Event = Begin(op: Op, id: nat) | BeginCreate(c: Creation, at: int) | Advance(i: nat, now: int) | Reset

  function Start(base: nat): Sys { Sys(Store(map[], map[], base), [], []) }

  function Fire(s: Sys, e: Event): Sys {
    match e
    case Begin(op, id) => FireBegin(s, op, id)
    case BeginCreate(c, at) => FireBeginCreate(s, c, at)
    case Advance(i, now) => if i < |s.threads| then FireAdvance(s, i, now) else s
    case Reset => s.(store := Store(map[], map[], s.store.nextID))
  }

  /** `Get` and everything the call decides from the copy. */
  function FireBegin(s: Sys, op: Op, id: nat): Sys {
    if id !in s.store.byID then s
    else
      match PlanOf(op, s.store.byID[id])
      case Answer(_) => s
      case Go(tasks) => s.(threads := s.threads + [Updating(id, tasks)])
  }

  function FireBeginCreate(s: Sys, c: Creation, at: int): Sys {
    if !Acceptable(c) then s
    else
      var n := s.store.nextID + 1;
      s.(store := s.store.(nextID := n), issued := s.issued + [Issue(n, None)],
         threads := s.threads + [Creating(Blueprint(c, n, at), DoAll(AfterCreate(c)))])
  }

  function FireAdvance(s: Sys, i: nat, now: int): Sys
    requires i < |s.threads|
  {
    match s.threads[i]
    case Creating(rec, rest) =>
      s.(store := StoreCreate(s.store, rec, now), threads := s.threads[i := Updating(rec.paymentID, rest)])
    case Updating(id, tasks) =>
      if tasks == [] then s
      else
        match tasks[0]
        case Refund(delta, outcome) =>
          var n := s.store.nextID + 1;
          s.(store := s.store.(nextID := n), issued := s.issued + [Issue(n, Some(id))],
             threads := s.threads[i := Updating(id, [Do(AddRefundOp(delta, n, outcome))] + tasks[1..])])
        case Do(c) =>
          var (st, err) := StoreUpdate(s.store, id, ChangeFn(c, now));
          s.(store := st, threads := s.threads[i := Updating(id, if err.Some? then [] else tasks[1..])])
  }

  function Run(s: Sys, events: seq<Event>): Sys
    decreases |events|
  {
    if events == [] then s else Run(Fire(s, events[0]), events[1..])
  }

  lemma {:induction false} RunAppend(s: Sys, a: seq<Event>, b: seq<Event>)
    ensures Run(s, a + b) == Run(Run(s, a), b)
    decreases |a|
  {
    hide Fire;
    if a == [] {
      assert a + b == b;
    } else {
      assert (a + b)[1..] == a[1..] + b;
      RunAppend(Fire(s, a[0]), a[1..], b);
    }
  }

  /** The payments that the panel may force: any, or any but one. */
  datatype Panel = Anyone | AllBut(spared: nat)

  predicate MayForce(panel: Panel, id: nat) {
    panel.AllBut? ==> id != panel.spared
  }

  ghost predicate Spares(e: Event, panel: Panel) {
    e.Begin? && e.op.ApplyForce? ==> MayForce(panel, e.id)
  }

  ghost predicate SparesAll(events: seq<Event>, panel: Panel) {
    forall k :: 0 <= k < |events| ==> Spares(events[k], panel)
  }

  /** Nobody forces this payment; others may be. */
  predicate NeverForced(events: seq<Event>, id: nat) {
    forall k :: 0 <= k < |events| ==> !Forces(events[k], id)
  }

  predicate Forces(e: Event, id: nat) {
    e.Begin? && e.op.ApplyForce? && e.id == id
  }

  lemma NeverForcedSpares(events: seq<Event>, id: nat)
    requires NeverForced(events, id)
    ensures SparesAll(events, AllBut(id))
  {
    forall k | 0 <= k < |events| ensures Spares(events[k], AllBut(id)) {
      assert !Forces(events[k], id);
    }
  }

  // ------------------------------------------------------- numbers are used once

  /** Where a number from the counter can be found. */
  datatype Place = Key(id: nat) | Listed(id: nat, k: nat) | Making(t: nat) | Pending(t: nat)

  predicate Holds(s: Sys, n: nat, p: Place) {
    match p
    case Key(id) => n == id && id in s.store.byID
    case Listed(id, k) =>
      id in s.store.byID && k < |s.store.byID[id].refunds| && s.store.byID[id].refunds[k].paymentID == n
    case Making(t) => t < |s.threads| && s.threads[t].Creating? && s.threads[t].rec.paymentID == n
    case Pending(t) =>
      && t < |s.threads| && s.threads[t].Updating? && s.threads[t].tasks != []
      && IsRefundOp(s.threads[t].tasks[0]) && s.threads[t].tasks[0].c.refundID == n
  }

  predicate IsRefundOp(t: Task) { t.Do? && t.c.AddRefundOp? }

  /** The issue that must have put the number there. */
  function IssueFor(s: Sys, n: nat, p: Place): Issue
    requires Holds(s, n, p)
  {
    match p
    case Key(_) => Issue(n, None)
    case Listed(id, _) => Issue(n, Some(id))
    case Making(_) => Issue(n, None)
    case Pending(t) => Issue(n, Some(s.threads[t].id))
  }

  predicate Shaped(t: Thread) {
    match t
    case Creating(rec, rest) => Fresh(rec) && forall k :: 0 <= k < |rest| ==> rest[k].Do? && !rest[k].c.AddRefundOp?
    case Updating(_, tasks) => forall k :: 0 < k < |tasks| ==> !IsRefundOp(tasks[k])
  }

  ghost predicate Increasing(s: Sys) {
    && (forall i, j :: 0 <= i < j < |s.issued| ==> s.issued[i].number < s.issued[j].number)
    && (forall i :: 0 <= i < |s.issued| ==> s.issued[i].number <= s.store.nextID)
  }

  ghost predicate AllIssued(s: Sys) {
    forall n, p :: Holds(s, n, p) ==> IssueFor(s, n, p) in s.issued
  }

  /** No number sits in two places: not in two records, not in two refund lists, not in a list and a call. */
  ghost predicate UsedOnce(s: Sys) {
    forall n, p, q :: Holds(s, n, p) && Holds(s, n, q) ==> p == q
  }

  /** Nobody updates a payment that is still being made. */
  ghost predicate Apart(s: Sys) {
    forall t, u :: 0 <= t < |s.threads| && 0 <= u < |s.threads| && s.threads[t].Updating? && s.threads[u].Creating? ==>
      s.threads[t].id != s.threads[u].rec.paymentID
  }

  ghost predicate WellShaped(s: Sys) {
    && (forall id :: id in s.store.byID ==> s.store.byID[id].paymentID == id)
    && (forall t :: 0 <= t < |s.threads| ==>
          Shaped(s.threads[t]) && (s.threads[t].Updating? ==> s.threads[t].id <= s.store.nextID))
  }

  ghost predicate Numbers(s: Sys) {
    WellShaped(s) && Increasing(s) && AllIssued(s) && UsedOnce(s) && Apart(s)
  }

  lemma NumbersAreIssued(s: Sys, n: nat, p: Place)
    requires Numbers(s) && Holds(s, n, p)
    ensures n <= s.store.nextID
  {
    var k :| 0 <= k < |s.issued| && s.issued[k] == IssueFor(s, n, p);
  }

  lemma {:induction false} PlanHoldsNoRefundOp(op: Op, r: Record)
    requires PlanOf(op, r).Go?
    ensures forall k :: 0 <= k < |PlanOf(op, r).tasks| ==> !IsRefundOp(PlanOf(op, r).tasks[k])
  {
  }

  lemma {:induction false} AfterCreateIsPlain(c: Creation)
    ensures var tasks := DoAll(AfterCreate(c));
            forall k :: 0 <= k < |tasks| ==> tasks[k].Do? && !tasks[k].c.AddRefundOp? && !tasks[k].c.AddRefund?
  {
  }

  /** A step that puts no new number anywhere keeps every number where it is known to be. */
  lemma BeginKeepsNumbers(s: Sys, op: Op, id: nat)
    requires Numbers(s)
    ensures Numbers(FireBegin(s, op, id))
  {
    if id in s.store.byID && PlanOf(op, s.store.byID[id]).Go? {
      PlanHoldsNoRefundOp(op, s.store.byID[id]);
      NewThreadKeepsNumbers(s, id, PlanOf(op, s.store.byID[id]).tasks);
    }
  }

  lemma {:induction false} NewThreadKeepsNumbers(s: Sys, id: nat, tasks: seq<Task>)
    requires Numbers(s) && id in s.store.byID
    requires forall k :: 0 <= k < |tasks| ==> !IsRefundOp(tasks[k])
    ensures Numbers(s.(threads := s.threads + [Updating(id, tasks)]))
  {
    var s' := s.(threads := s.threads + [Updating(id, tasks)]);
    assert Holds(s, id, Key(id));
    NumbersAreIssued(s, id, Key(id));
    forall n: nat, p | Holds(s', n, p) ensures Holds(s, n, p) && IssueFor(s', n, p) == IssueFor(s, n, p) {
    }
    forall u | 0 <= u < |s.threads| && s.threads[u].Creating? ensures s.threads[u].rec.paymentID != id {
      assert !Holds(s, id, Making(u));
    }
  }

  lemma BeginCreateKeepsNumbers(s: Sys, c: Creation, at: int)
    requires Numbers(s)
    ensures Numbers(FireBeginCreate(s, c, at))
  {
    if Acceptable(c) {
      var n := s.store.nextID + 1;
      BlueprintIsFresh(c, n, at);
      AfterCreateIsPlain(c);
      MakingKeepsNumbers(s, Blueprint(c, n, at), DoAll(AfterCreate(c)));
    }
  }

  lemma MakingKeepsNumbers(s: Sys, rec: Record, rest: seq<Task>)
    requires Numbers(s) && Shaped(Creating(rec, rest)) && rec.paymentID == s.store.nextID + 1
    ensures Numbers(s.(store := s.store.(nextID := rec.paymentID), issued := s.issued + [Issue(rec.paymentID, None)],
                       threads := s.threads + [Creating(rec, rest)]))
  {
    var s' := s.(store := s.store.(nextID := rec.paymentID), issued := s.issued + [Issue(rec.paymentID, None)],
                 threads := s.threads + [Creating(rec, rest)]);
    forall n: nat, p | Holds(s', n, p)
      ensures IssueFor(s', n, p) in s'.issued
      ensures if p == Making(|s.threads|) then n == rec.paymentID else n <= s.store.nextID && Holds(s, n, p)
    {
      if p != Making(|s.threads|) {
        assert Holds(s, n, p);
        NumbersAreIssued(s, n, p);
        assert IssueFor(s', n, p) == IssueFor(s, n, p);
      }
    }
  }

  lemma ResetKeepsNumbers(s: Sys)
    requires Numbers(s)
    ensures Numbers(Fire(s, Event.Reset))
  {
    var s' := Fire(s, Event.Reset);
    forall n: nat, p | Holds(s', n, p) ensures Holds(s, n, p) && IssueFor(s', n, p) == IssueFor(s, n, p) {
    }
  }

  lemma CreateKeepsNumbers(s: Sys, i: nat, now: int)
    requires Numbers(s) && i < |s.threads| && s.threads[i].Creating?
    ensures Numbers(FireAdvance(s, i, now))
    ensures s.threads[i].rec.paymentID !in s.store.byID
  {
    var s' := FireAdvance(s, i, now);
    var id := s.threads[i].rec.paymentID;
    assert Holds(s, id, Making(i));
    NumbersAreIssued(s, id, Making(i));
    assert !Holds(s, id, Key(id));
    forall n: nat, p | Holds(s', n, p)
      ensures if p == Key(id) then n == id else p != Making(i) && Holds(s, n, p)
      ensures IssueFor(s', n, p) in s'.issued
    {
      if p == Key(id) {
        assert IssueFor(s', n, p) == IssueFor(s, n, Making(i));
      } else {
        assert Holds(s, n, p);
        assert IssueFor(s', n, p) == IssueFor(s, n, p);
      }
    }
    forall u | 0 <= u < |s.threads| && u != i && s.threads[u].Creating? ensures s.threads[u].rec.paymentID != id {
      assert !Holds(s, id, Making(u));
    }
  }

  lemma TakeRefundIDKeepsNumbers(s: Sys, i: nat, now: int)
    requires Numbers(s) && i < |s.threads| && s.threads[i].Updating?
    requires s.threads[i].tasks != [] && s.threads[i].tasks[0].Refund?
    ensures Numbers(FireAdvance(s, i, now))
  {
    var s' := FireAdvance(s, i, now);
    var taken := s.store.nextID + 1;
    forall n: nat, p | Holds(s', n, p)
      ensures if p == Pending(i) then n == taken else n <= s.store.nextID && Holds(s, n, p)
      ensures IssueFor(s', n, p) in s'.issued
    {
      if p != Pending(i) {
        assert Holds(s, n, p);
        NumbersAreIssued(s, n, p);
        assert IssueFor(s', n, p) == IssueFor(s, n, p);
      }
    }
  }

  /** One write of a stored record, which lists the refund number that the call was holding, if any. */
  lemma WriteKeepsNumbers(s: Sys, i: nat, r: Record, rest: seq<Task>)
    requires Numbers(s) && i < |s.threads| && s.threads[i].Updating? && s.threads[i].id in s.store.byID
    requires var tasks := s.threads[i].tasks; tasks != [] && (rest == [] || rest == tasks[1..])
    requires r.paymentID == s.threads[i].id
    requires RefundsGrow(s.store.byID[r.paymentID].refunds, r.refunds, s.threads[i].tasks[0])
    ensures Numbers(Written(s, i, r, rest))
  {
    var id := r.paymentID;
    var s' := Written(s, i, r, rest);
    var listed := |s.store.byID[id].refunds|;
    forall n: nat, p | Holds(s', n, p)
      ensures p != Pending(i)
      ensures if p == Listed(id, listed) then Holds(s, n, Pending(i)) else Holds(s, n, p)
      ensures IssueFor(s', n, p) in s'.issued
    {
      var from := if p == Listed(id, listed) then Pending(i) else p;
      WrittenFrom(s, i, r, rest, n, p);
      assert Holds(s, n, from);
    }
    hide RefundsGrow;
    assert UsedOnce(s') by { hide IssueFor, Shaped, Increasing, AllIssued, Apart, WellShaped; }
  }

  lemma WrittenFrom(s: Sys, i: nat, r: Record, rest: seq<Task>, n: nat, p: Place)
    requires i < |s.threads| && s.threads[i].Updating? && s.threads[i].id in s.store.byID
    requires var tasks := s.threads[i].tasks; tasks != [] && (rest == [] || rest == tasks[1..])
    requires Shaped(s.threads[i]) && r.paymentID == s.threads[i].id
    requires RefundsGrow(s.store.byID[r.paymentID].refunds, r.refunds, s.threads[i].tasks[0])
    requires Holds(Written(s, i, r, rest), n, p)
    ensures var from := if p == Listed(r.paymentID, |s.store.byID[r.paymentID].refunds|) then Pending(i) else p;
            p != Pending(i) && Holds(s, n, from) && IssueFor(Written(s, i, r, rest), n, p) == IssueFor(s, n, from)
  {
  }

  function Written(s: Sys, i: nat, r: Record, rest: seq<Task>): Sys
    requires i < |s.threads|
  {
    s.(store := s.store.(byID := s.store.byID[r.paymentID := r]),
       threads := s.threads[i := Updating(r.paymentID, rest)])
  }

  ghost predicate RefundsGrow(before: seq<RefundOp>, after: seq<RefundOp>, t: Task) {
    if IsRefundOp(t) then exists op: RefundOp :: op.paymentID == t.c.refundID && after == before + [op]
    else after == before
  }

  lemma DropKeepsNumbers(s: Sys, i: nat)
    requires Numbers(s) && i < |s.threads| && s.threads[i].Updating?
    ensures Numbers(s.(threads := s.threads[i := Updating(s.threads[i].id, [])]))
  {
    var s' := s.(threads := s.threads[i := Updating(s.threads[i].id, [])]);
    forall n: nat, p | Holds(s', n, p) ensures Holds(s, n, p) && IssueFor(s', n, p) == IssueFor(s, n, p) {
    }
  }

  lemma UpdateKeepsNumbers(s: Sys, i: nat, now: int)
    requires Numbers(s) && i < |s.threads| && s.threads[i].Updating?
    requires s.threads[i].tasks != [] && s.threads[i].tasks[0].Do?
    ensures Numbers(FireAdvance(s, i, now))
  {
    var id, c := s.threads[i].id, s.threads[i].tasks[0].c;
    if id in s.store.byID {
      var (r, err) := Changed(s.store.byID[id], c, now);
      ChangeKeepsIdentity(s.store.byID[id], c, now);
      RefundsGrowBy(s.store.byID[id], c, now);
      hide Settle;
      hide Effect;
      hide Numbers;
      assert s.store.byID[id].paymentID == id by { assert Numbers(s) ==> WellShaped(s) by { NumbersMean(s); } }
      WriteKeepsNumbers(s, i, r, if err.Some? then [] else s.threads[i].tasks[1..]);
    } else {
      DropKeepsNumbers(s, i);
    }
  }

  lemma NumbersMean(s: Sys)
    requires Numbers(s)
    ensures WellShaped(s)
  {
  }

  lemma RefundsGrowBy(r: Record, c: Change, now: int)
    ensures RefundsGrow(r.refunds, Changed(r, c, now).0.refunds, Do(c))
  {
    if c.AddRefundOp? {
      RefundOpEffect(r, c, now);
      hide Changed;
      var op := RefundOp(c.refundID, REFERENCE_BASE + c.refundID, Negated(c.delta), c.outcome, now);
      assert op.paymentID == c.refundID && Changed(r, c, now).0.refunds == r.refunds + [op];
    }
  }

  lemma FireKeepsNumbers(s: Sys, e: Event)
    requires Numbers(s)
    ensures Numbers(Fire(s, e))
  {
    match e
    case Begin(op, id) => BeginKeepsNumbers(s, op, id);
    case BeginCreate(c, at) => BeginCreateKeepsNumbers(s, c, at);
    case Reset => ResetKeepsNumbers(s);
    case Advance(i, now) =>
      if i < |s.threads| {
        if s.threads[i].Creating? { CreateKeepsNumbers(s, i, now); }
        else if s.threads[i].tasks != [] && s.threads[i].tasks[0].Refund? { TakeRefundIDKeepsNumbers(s, i, now); }
        else if s.threads[i].tasks != [] { UpdateKeepsNumbers(s, i, now); }
      }
  }

  // ------------------------------------------------------- records stay in order

  predicate MoneyTask(t: Task) { t.Refund? || t.c.AddRefundOp? || t.c.AddRefund? }

  /** A refund is under way only where money was once captured, and an unlisted one only at Epay and Flitt. */
  predicate TaskFits(t: Task, r: Record) {
    (t.Do? ==> Fits(t.c, r.bank)) && (MoneyTask(t) ==> Settled(r.status))
  }

  predicate ServiceTask(t: Task) { t.Do? ==> ServiceChange(t.c) }

  ghost predicate ThreadFits(st: Store, t: Thread) {
    match t
    case Creating(_, rest) => forall k :: 0 <= k < |rest| ==> ServiceTask(rest[k]) && !MoneyTask(rest[k])
    case Updating(id, tasks) =>
      && (forall k :: 0 <= k < |tasks| ==> ServiceTask(tasks[k]))
      && (id in st.byID ==> forall k :: 0 <= k < |tasks| ==> TaskFits(tasks[k], st.byID[id]))
  }

  /** The payment that a call in flight is about. */
  function Subject(t: Thread): nat {
    if t.Creating? then t.rec.paymentID else t.id
  }

  ghost predicate ThreadsFit(s: Sys, panel: Panel) {
    forall t :: 0 <= t < |s.threads| && !MayForce(panel, Subject(s.threads[t])) ==> ThreadFits(s.store, s.threads[t])
  }

  ghost predicate AllSound(st: Store, panel: Panel) {
    forall id :: id in st.byID ==> Sound(st.byID[id], MayForce(panel, id))
  }

  ghost predicate Records(s: Sys, panel: Panel) {
    AllSound(s.store, panel) && ThreadsFit(s, panel)
  }

  lemma {:induction false} PlanFits(op: Op, r: Record)
    requires PlanOf(op, r).Go? && !op.ApplyForce?
    ensures var tasks := PlanOf(op, r).tasks;
            forall k :: 0 <= k < |tasks| ==> ServiceTask(tasks[k]) && TaskFits(tasks[k], r)
  {
  }

  lemma {:induction false} AfterCreateFits(c: Creation)
    ensures var tasks := DoAll(AfterCreate(c));
            forall k :: 0 <= k < |tasks| ==> ServiceTask(tasks[k]) && !MoneyTask(tasks[k])
  {
  }

  lemma BeginKeepsRecords(s: Sys, op: Op, id: nat, panel: Panel)
    requires Records(s, panel) && (op.ApplyForce? ==> MayForce(panel, id))
    ensures Records(FireBegin(s, op, id), panel)
  {
    if id in s.store.byID && PlanOf(op, s.store.byID[id]).Go? && !MayForce(panel, id) {
      PlanFits(op, s.store.byID[id]);
      hide PlanOf;
    }
  }

  lemma BeginCreateKeepsRecords(s: Sys, c: Creation, at: int, panel: Panel)
    requires Records(s, panel)
    ensures Records(FireBeginCreate(s, c, at), panel)
  {
    AfterCreateFits(c);
    hide AfterCreate;
    hide Blueprint;
  }

  lemma CreateKeepsRecords(s: Sys, i: nat, now: int, panel: Panel)
    requires Records(s, panel) && Numbers(s) && i < |s.threads| && s.threads[i].Creating?
    ensures Records(FireAdvance(s, i, now), panel)
  {
    var rec, s' := s.threads[i].rec, FireAdvance(s, i, now);
    assert Shaped(s.threads[i]);
    CreatedIsSound(rec, now);
    hide Created;
    forall t | 0 <= t < |s.threads| && !MayForce(panel, Subject(s.threads[t]))
      ensures ThreadFits(s'.store, s'.threads[t])
    {
      assert ThreadFits(s.store, s.threads[t]);
    }
  }

  lemma TakeRefundIDKeepsRecords(s: Sys, i: nat, now: int, panel: Panel)
    requires Records(s, panel) && i < |s.threads| && s.threads[i].Updating?
    requires s.threads[i].tasks != [] && s.threads[i].tasks[0].Refund?
    ensures Records(FireAdvance(s, i, now), panel)
  {
    if !MayForce(panel, s.threads[i].id) {
      assert ThreadFits(s.store, s.threads[i]);
    }
  }

  /** One write of a record keeps the calls in flight fitting when the bank stays and Settled is not lost. */
  lemma WriteKeepsRecords(s: Sys, i: nat, id: nat, r: Record, rest: seq<Task>, panel: Panel)
    requires Records(s, panel) && i < |s.threads| && s.threads[i].Updating?
    requires id == s.threads[i].id && id in s.store.byID
    requires var tasks := s.threads[i].tasks; tasks != [] && (rest == [] || rest == tasks[1..])
    requires Sound(r, MayForce(panel, id)) && r.bank == s.store.byID[id].bank
    requires !MayForce(panel, id) && Settled(s.store.byID[id].status) ==> Settled(r.status)
    ensures Records(s.(store := s.store.(byID := s.store.byID[id := r]), threads := s.threads[i := Updating(id, rest)]),
                    panel)
  {
    hide Sound;
    var s' := s.(store := s.store.(byID := s.store.byID[id := r]), threads := s.threads[i := Updating(id, rest)]);
    forall t | 0 <= t < |s.threads| && !MayForce(panel, Subject(s'.threads[t]))
      ensures ThreadFits(s'.store, s'.threads[t])
    {
      assert ThreadFits(s.store, s.threads[t]);
    }
  }

  lemma UpdateKeepsRecords(s: Sys, i: nat, now: int, panel: Panel)
    requires Records(s, panel) && i < |s.threads| && s.threads[i].Updating?
    requires s.threads[i].tasks != [] && s.threads[i].tasks[0].Do?
    ensures Records(FireAdvance(s, i, now), panel)
  {
    hide Sound;
    hide Effect;
    hide Settle;
    var id, c := s.threads[i].id, s.threads[i].tasks[0].c;
    if !MayForce(panel, id) { assert ThreadFits(s.store, s.threads[i]); }
    if id in s.store.byID {
      var r := s.store.byID[id];
      if !MayForce(panel, id) { StatusMoves(r, c, now); }
      ChangeKeepsSound(r, c, now, MayForce(panel, id));
      ChangeKeepsIdentity(r, c, now);
      var (r', err) := Changed(r, c, now);
      hide Records;
      WriteKeepsRecords(s, i, id, r', if err.Some? then [] else s.threads[i].tasks[1..], panel);
    }
  }

  lemma FireKeepsRecords(s: Sys, e: Event, panel: Panel)
    requires Records(s, panel) && Numbers(s) && Spares(e, panel)
    ensures Records(Fire(s, e), panel)
  {
    match e
    case Begin(op, id) => BeginKeepsRecords(s, op, id, panel);
    case BeginCreate(c, at) => BeginCreateKeepsRecords(s, c, at, panel);
    case Reset =>
    case Advance(i, now) =>
      if i < |s.threads| {
        if s.threads[i].Creating? { CreateKeepsRecords(s, i, now, panel); }
        else if s.threads[i].tasks == [] {}
        else if s.threads[i].tasks[0].Refund? { TakeRefundIDKeepsRecords(s, i, now, panel); }
        else { UpdateKeepsRecords(s, i, now, panel); }
      }
  }

  lemma {:induction false} RunKeepsOrder(s: Sys, events: seq<Event>, panel: Panel)
    requires Numbers(s) && Records(s, panel) && SparesAll(events, panel)
    ensures Numbers(Run(s, events)) && Records(Run(s, events), panel)
    decreases |events|
  {
    if events != [] {
      hide Numbers;
      hide Records;
      hide Fire;
      assert Spares(events[0], panel);
      FireKeepsNumbers(s, events[0]);
      FireKeepsRecords(s, events[0], panel);
      assert SparesAll(events[1..], panel);
      RunKeepsOrder(Fire(s, events[0]), events[1..], panel);
    }
  }

  lemma StartIsOrdered(base: nat, panel: Panel)
    ensures Numbers(Start(base)) && Records(Start(base), panel)
  {
    hide Sound;
    assert forall n, p :: !Holds(Start(base), n, p);
  }

  lemma {:induction false} ReachableIsOrdered(base: nat, events: seq<Event>, panel: Panel)
    requires SparesAll(events, panel)
    ensures Numbers(Run(Start(base), events)) && Records(Run(Start(base), events), panel)
  {
    hide Numbers;
    hide Records;
    hide Run;
    StartIsOrdered(base, panel);
    RunKeepsOrder(Start(base), events, panel);
  }

  // --------------------------------------------------------------- main results

  /**
   * Over every interleaving of calls, forced ones and resets included, no number of a payment or a
   * refund is ever handed out twice, and each sits in at most one record or refund list.
   */
  lemma {:induction false} NumbersNeverRepeat(base: nat, events: seq<Event>)
    ensures var s := Run(Start(base), events);
            && (forall i, j :: 0 <= i < |s.issued| && 0 <= j < |s.issued| && i != j ==>
                  s.issued[i].number != s.issued[j].number)
            && (forall id :: id in s.store.byID ==> s.store.byID[id].paymentID == id && Issue(id, None) in s.issued)
            && (forall id, k :: id in s.store.byID && 0 <= k < |s.store.byID[id].refunds| ==>
                  Issue(s.store.byID[id].refunds[k].paymentID, Some(id)) in s.issued)
            && UsedOnce(s)
  {
    ReachableIsOrdered(base, events, Anyone);
    var s := Run(Start(base), events);
    forall id | id in s.store.byID ensures Issue(id, None) in s.issued {
      assert Holds(s, id, Key(id));
    }
    forall id, k | id in s.store.byID && 0 <= k < |s.store.byID[id].refunds|
      ensures Issue(s.store.byID[id].refunds[k].paymentID, Some(id)) in s.issued
    {
      assert Holds(s, s.store.byID[id].refunds[k].paymentID, Listed(id, k));
    }
  }

  /** Over every interleaving, forced calls included, the history of every record is a run of its statuses. */
  lemma HistoryIsFaithful(base: nat, events: seq<Event>, id: nat)
    requires id in Run(Start(base), events).store.byID
    ensures Faithful(Run(Start(base), events).store.byID[id])
    ensures OwnReference(Run(Start(base), events).store.byID[id])
  {
    ReachableIsOrdered(base, events, Anyone);
  }

  /**
   * Over every interleaving, a payment that nobody forces is authorized at most once and its refunds add up,
   * whatever is forced on others.
   */
  lemma {:induction false} AuthorizedOnceAndConserved(base: nat, events: seq<Event>, id: nat)
    requires NeverForced(events, id)
    requires id in Run(Start(base), events).store.byID
    ensures var r := Run(Start(base), events).store.byID[id];
            && Entries(r.history, Authorized) <= 1
            && (r.status == New || r.status == HoldPending ==> Entries(r.history, Authorized) == 0)
            && (KeepsOperations(r.bank) ==>
                  && r.refunded == Revoked(r.refunds) % TWO_64
                  && (r.refunded == Revoked(r.refunds) <==> 0 <= Revoked(r.refunds) < TWO_64))
  {
    hide Run;
    hide Revoked;
    hide Entries;
    hide Sound;
    RunIsSound(base, events, id);
    SoundMeans(Run(Start(base), events).store.byID[id]);
  }

  lemma {:induction false} RunIsSound(base: nat, events: seq<Event>, id: nat)
    requires NeverForced(events, id)
    requires id in Run(Start(base), events).store.byID
    ensures Sound(Run(Start(base), events).store.byID[id], false)
  {
    hide Run;
    hide Sound;
    hide Numbers;
    NeverForcedSpares(events, id);
    ReachableIsOrdered(base, events, AllBut(id));
  }

  /** The next step of the call is an update that writes its status without looking at the old one. */
  predicate LateWrite(s: Sys, e: Event, id: nat) {
    && e.Advance? && e.i < |s.threads| && s.threads[e.i].Updating? && s.threads[e.i].id == id
    && s.threads[e.i].tasks != [] && s.threads[e.i].tasks[0].Do?
    && var c := s.threads[e.i].tasks[0].c; c.SetCaptured? || c.EpayDeclined? || c.FlittDeclined?
  }

  /**
   * A cancelled payment is not safe from calls that decided before the cancellation. It leaves CANCELLED
   * exactly on the late write of a capture, or of the decline inside its own constructor.
   */
  lemma {:induction false} CancelledIsLeftByLateWrites(base: nat, events: seq<Event>, e: Event, id: nat)
    requires !Forces(e, id) && NeverForced(events, id)
    requires var s := Run(Start(base), events);
             id in s.store.byID && s.store.byID[id].status == Cancelled && id in Fire(s, e).store.byID
    ensures var s := Run(Start(base), events);
            Fire(s, e).store.byID[id].status != Cancelled <==> LateWrite(s, e, id)
  {
    hide Run;
    hide Fire;
    NeverForcedSpares(events, id);
    ReachableIsOrdered(base, events, AllBut(id));
    CancelledIsLeft(Run(Start(base), events), e, id);
  }

  lemma CancelledIsLeft(s: Sys, e: Event, id: nat)
    requires !Forces(e, id) && Numbers(s) && Records(s, AllBut(id))
    requires id in s.store.byID && s.store.byID[id].status == Cancelled && id in Fire(s, e).store.byID
    ensures Fire(s, e).store.byID[id].status != Cancelled <==> LateWrite(s, e, id)
  {
    hide PlanOf;
    if e.Advance? && e.i < |s.threads| {
      if s.threads[e.i].Creating? {
        CreateKeepsNumbers(s, e.i, e.now);
      } else if s.threads[e.i].id == id && s.threads[e.i].tasks != [] && s.threads[e.i].tasks[0].Do? {
        assert ThreadFits(s.store, s.threads[e.i]);
        WriteLeavesCancelled(s, e.i, e.now, id);
        hide FireAdvance;
      }
    }
  }

  lemma WriteLeavesCancelled(s: Sys, i: nat, now: int, id: nat)
    requires i < |s.threads| && s.threads[i].Updating? && s.threads[i].id == id
    requires s.threads[i].tasks != [] && s.threads[i].tasks[0].Do?
    requires id in s.store.byID && s.store.byID[id].status == Cancelled
    requires var t := s.threads[i].tasks[0]; ServiceTask(t) && TaskFits(t, s.store.byID[id])
    ensures var s' := FireAdvance(s, i, now);
            id in s'.store.byID && (s'.store.byID[id].status != Cancelled <==> LateWrite(s, Advance(i, now), id))
  {
    LateWriteLeavesCancelled(s.store.byID[id], s.threads[i].tasks[0].c, now);
    hide Settle;
    hide Effect;
  }

  lemma LateWriteLeavesCancelled(r: Record, c: Change, now: int)
    requires r.status == Cancelled && ServiceChange(c) && !c.AddRefundOp? && !c.AddRefund?
    ensures Changed(r, c, now).0.status != Cancelled <==> c.SetCaptured? || c.EpayDeclined? || c.FlittDeclined?
  {
  }

  /** And that happens: a capture that read the hold just before it was cancelled still captures. */
  lemma CaptureOutlivesCancel(s: Sys, id: nat, amount: uint64, now: int)
    requires id in s.store.byID && s.store.byID[id].status == Authorized
    ensures var n := |s.threads|;
            var s' := Run(s, [Begin(Cancel, id), Begin(Capture(amount), id), Advance(n, now), Advance(n + 1, now)]);
            && id in s'.store.byID
            && var r := s'.store.byID[id];
               && r.status == Captured
               && r.history == s.store.byID[id].history + [HistoryEntry(Some(Authorized), Cancelled, "cancel"),
                                                           HistoryEntry(Some(Cancelled), Captured, "capture")]
  {
    var n := |s.threads|;
    var r := s.store.byID[id];
    var target := if amount == 0 then r.amount else amount;
    var s1 := Fire(s, Begin(Cancel, id));
    assert s1 == s.(threads := s.threads + [Updating(id, [Do(Transition(Cancelled, "cancel"))])]);
    var s2 := Fire(s1, Begin(Capture(amount), id));
    assert s2 == s1.(threads := s1.threads + [Updating(id, [Do(SetCaptured(target, "capture"))])]);
    hide PlanOf;
    var e1, e2 := Advance(n, now), Advance(n + 1, now);
    var s3 := Fire(s2, e1);
    var r1 := r.(status := Cancelled, history := r.history + [HistoryEntry(Some(Authorized), Cancelled, "cancel")]);
    assert s3.store.byID[id] == r1 && s3.threads[n + 1] == s2.threads[n + 1];
    var s4 := Fire(s3, e2);
    assert s4.store.byID[id].history == r1.history + [HistoryEntry(Some(Cancelled), Captured, "capture")];
    hide Fire;
    RunFour(s, Begin(Cancel, id), Begin(Capture(amount), id), e1, e2);
  }

  lemma RunFour(s: Sys, a: Event, b: Event, c: Event, d: Event)
    ensures Run(s, [a, b, c, d]) == Fire(Fire(Fire(Fire(s, a), b), c), d)
  {
    hide Fire;
    assert [a, b, c, d][1..] == [b, c, d] && [b, c, d][1..] == [c, d] && [c, d][1..] == [d] && [d][1..] == [];
    var s1 := Fire(s, a);
    var s2 := Fire(s1, b);
    var s3 := Fire(s2, c);
    assert Run(s3, [d]) == Run(Fire(s3, d), []);
    assert Run(s2, [c, d]) == Run(s3, [d]);
    assert Run(s1, [b, c, d]) == Run(s2, [c, d]);
  }
}
