/** The payment repository and the service over it, with calls as atomic steps. */
module PayStore {
  import opened Text
  import opened Pay

  datatype Store = Store(byID: map<nat, Record>, byOrder: map<nat, nat>, nextID: nat)

  // ------------------------------------------------------ what the calls compute

  function StoreUpdate(st: Store, id: nat, fn: Record -> Outcome): (Store, Option<Error>) {
    if id !in st.byID then (st, Some(NotFound))
    else
      var (r, e) := UpdateRecord(st.byID[id], fn);
      (st.(byID := st.byID[id := r]), e)
  }

  function StoreCreate(st: Store, r: Record, now: int): Store {
    var rec := Created(r, now);
    st.(byID := st.byID[r.paymentID := rec],
        byOrder := if r.orderID != 0 then st.byOrder[r.orderID := r.paymentID] else st.byOrder)
  }

  /** Makes the updates one after the other; the first that fails ends the call. */
  function RunTasks(st: Store, id: nat, tasks: seq<Task>, now: int): (Store, Option<Error>)
    decreases |tasks|, if tasks != [] && tasks[0].Refund? then 1 else 0
  {
    if tasks == [] then (st, None)
    else
      match tasks[0]
      case Do(c) =>
        var (st', e) := StoreUpdate(st, id, ChangeFn(c, now));
        if e.Some? then (st', e) else RunTasks(st', id, tasks[1..], now)
      case Refund(delta, outcome) =>
        RunTasks(st.(nextID := st.nextID + 1), id, [Do(AddRefundOp(delta, st.nextID + 1, outcome))] + tasks[1..], now)
  }

  function Perform(st: Store, op: Op, id: nat, now: int): (Store, Option<Error>) {
    if id !in st.byID then (st, Some(NotFound))
    else
      match PlanOf(op, st.byID[id])
      case Answer(err) => (st, err)
      case Go(tasks) => RunTasks(st, id, tasks, now)
  }

  function DoAll(cs: seq<Change>): seq<Task> {
    seq(|cs|, i requires 0 <= i < |cs| => Do(cs[i]))
  }

  function CreatePayment(st: Store, c: Creation, now: int): (Store, Option<Error>) {
    if !Acceptable(c) then (st, Some(BadInput))
    else
      var id := st.nextID + 1;
      var created := StoreCreate(st.(nextID := id), Blueprint(c, id, now), now);
      var (st', e) := RunTasks(created, id, DoAll(AfterCreate(c)), now);
      (st', if e.Some? then e else Verdict(c))
  }

  // ---------------------------------------------------------------- repository

  class PayRepo {
    var byID: map<nat, Record>
    var byOrder: map<nat, nat>
    var nextID: nat

    constructor (base: nat)
      ensures State() == Store(map[], map[], base)
    {
      byID, byOrder, nextID := map[], map[], base;
    }

    ghost function State(): Store
      reads this
    {
      Store(byID, byOrder, nextID)
    }

    method NextPaymentID() returns (id: nat)
      modifies this
      ensures id == old(nextID) + 1 && State() == old(State()).(nextID := id)
    {
      nextID := nextID + 1;
      id := nextID;
    }

    method Create(rec: Record, now: int)
      modifies this
      ensures State() == StoreCreate(old(State()), rec, now)
    {
      var r := rec.(createdAt := now, history := rec.history + [HistoryEntry(None, rec.status, "create")]);
      byID := byID[rec.paymentID := r];
      if rec.orderID != 0 {
        byOrder := byOrder[rec.orderID := rec.paymentID];
      }
    }

    method Get(id: nat) returns (r: Result<Record, Error>)
      ensures r == if id in byID then Ok(byID[id]) else Err(NotFound)
    {
      if id !in byID { return Err(NotFound); }
      r := Ok(byID[id]);
    }

    method Update(id: nat, fn: Record -> Outcome) returns (r: Result<Record, Error>)
      modifies this
      ensures var (st, e) := StoreUpdate(old(State()), id, fn);
              State() == st && (if e.Some? then r == Err(e.value) else id in byID && r == Ok(byID[id]))
    {
      if id !in byID { return Err(NotFound); }
      var from := byID[id].status;
      var o := fn(byID[id]);
      byID := byID[id := o.rec];
      if o.err.Some? { return Err(o.err.value); }
      if o.to.Some? && o.to.value != from {
        var rec := byID[id];
        rec := rec.(status := o.to.value, history := rec.history + [HistoryEntry(Some(from), o.to.value, o.reason)]);
        byID := byID[id := rec];
      }
      r := Ok(byID[id]);
    }

    method Transition(id: nat, allowed: Option<set<Status>>, to: Status, reason: string, now: int)
      returns (r: Result<Record, Error>)
      modifies this
      ensures var (st, e) := StoreUpdate(old(State()), id, TransitionFn(allowed, to, reason, now));
              State() == st && (if e.Some? then r == Err(e.value) else id in byID && r == Ok(byID[id]))
    {
      r := Update(id, TransitionFn(allowed, to, reason, now));
    }

    method Reset()
      modifies this
      ensures State() == Store(map[], map[], old(nextID))
    {
      byID, byOrder := map[], map[];
    }
  }

  // ------------------------------------------------------------------- service

  /** The answer of a call that ran alone: the error, or the record as it now stands. */
  ghost predicate Answers(r: Result<Record, Error>, repo: PayRepo, id: nat, result: (Store, Option<Error>))
    reads repo
  {
    && repo.State() == result.0
    && (if result.1.Some? then r == Err(result.1.value) else id in repo.byID && r == Ok(repo.byID[id]))
  }

  lemma FirstTask(st: Store, id: nat, c: Change, rest: seq<Task>, now: int)
    ensures var (st', e) := StoreUpdate(st, id, ChangeFn(c, now));
            RunTasks(st, id, [Do(c)] + rest, now) == if e.Some? then (st', e) else RunTasks(st', id, rest, now)
  {
    hide ChangeFn;
    hide StoreUpdate;
    assert ([Do(c)] + rest)[1..] == rest;
  }

  lemma OneTask(st: Store, id: nat, c: Change, now: int)
    ensures RunTasks(st, id, [Do(c)], now) == StoreUpdate(st, id, ChangeFn(c, now))
  {
    FirstTask(st, id, c, [], now);
    assert [Do(c)] + [] == [Do(c)];
  }

  lemma NoTask(st: Store, id: nat, now: int)
    ensures RunTasks(st, id, [], now) == (st, None)
  {
  }

  lemma RefundTask(st: Store, id: nat, delta: uint64, outcome: string, now: int)
    ensures RunTasks(st, id, [Refund(delta, outcome)], now)
         == StoreUpdate(st.(nextID := st.nextID + 1), id, ChangeFn(AddRefundOp(delta, st.nextID + 1, outcome), now))
  {
    hide ChangeFn;
    hide StoreUpdate;
    var c := AddRefundOp(delta, st.nextID + 1, outcome);
    OneTask(st.(nextID := st.nextID + 1), id, c, now);
    assert [Refund(delta, outcome)][1..] == [];
    assert [Do(c)] + [] == [Do(c)];
  }

  lemma TransitionIsChange(st: Store, id: nat, to: Status, reason: string, now: int)
    ensures StoreUpdate(st, id, ChangeFn(Transition(to, reason), now))
         == StoreUpdate(st, id, TransitionFn(AllowedTransitions(to), to, reason, now))
  {
  }

  class Service {
    const repo: PayRepo

    constructor (repo: PayRepo)
      ensures this.repo == repo
    {
      this.repo := repo;
    }

    method Hold(id: nat, now: int) returns (r: Result<Record, Error>)
      modifies repo
      ensures Answers(r, repo, id, Perform(old(repo.State()), Op.Hold, id, now))
    {
      var rec := repo.Get(id);
      if rec.Err? { return rec; }
      if rec.value.status == Authorized || rec.value.status == Captured { return Err(AlreadyAuthorized); }
      hide ChangeFn;
      hide UpdateRecord;
      hide RunTasks;
      FirstTask(repo.State(), id, Transition(Authorized, "hold"), [Do(EnsureReference)], now);
      TransitionIsChange(repo.State(), id, Authorized, "hold", now);
      assert [Do(Transition(Authorized, "hold"))] + [Do(EnsureReference)]
          == [Do(Transition(Authorized, "hold")), Do(EnsureReference)];
      r := repo.Transition(id, AllowedTransitions(Authorized), Authorized, "hold", now);
      if r.Err? { return; }
      r := MakeReference(id, r.value, now);
    }

    /** `ensureReference`. */
    method MakeReference(id: nat, rec: Record, now: int) returns (r: Result<Record, Error>)
      requires id in repo.byID && repo.byID[id] == rec
      modifies repo
      ensures Answers(r, repo, id, RunTasks(old(repo.State()), id, [Do(EnsureReference)], now))
    {
      OneTask(repo.State(), id, EnsureReference, now);
      if rec.reference != 0 {
        assert repo.byID[id := rec] == repo.byID;
        return Ok(rec);
      }
      r := repo.Update(id, ChangeFn(EnsureReference, now));
    }

    method Capture(id: nat, clearingAmount: uint64, now: int) returns (r: Result<Record, Error>)
      modifies repo
      ensures Answers(r, repo, id, Perform(old(repo.State()), Op.Capture(clearingAmount), id, now))
    {
      var rec := repo.Get(id);
      if rec.Err? { return rec; }
      if rec.value.status != Authorized { return Err(InvalidState); }
      var target := clearingAmount;
      if target == 0 { target := rec.value.amount; }
      OneTask(repo.State(), id, SetCaptured(target, "capture"), now);
      r := repo.Update(id, ChangeFn(SetCaptured(target, "capture"), now));
    }

    method Cancel(id: nat, now: int) returns (r: Result<Record, Error>)
      modifies repo
      ensures Answers(r, repo, id, Perform(old(repo.State()), Op.Cancel, id, now))
    {
      var rec := repo.Get(id);
      if rec.Err? { return rec; }
      if rec.value.status != Authorized { return Err(InvalidState); }
      OneTask(repo.State(), id, Transition(Cancelled, "cancel"), now);
      TransitionIsChange(repo.State(), id, Cancelled, "cancel", now);
      r := repo.Transition(id, AllowedTransitions(Cancelled), Cancelled, "cancel", now);
    }

    method RevokeWithOutcome(id: nat, refundAmount: uint64, outcome: string, now: int)
      returns (r: Result<Record, Error>)
      modifies repo
      ensures Answers(r, repo, id, Perform(old(repo.State()), Revoke(refundAmount, outcome), id, now))
    {
      var rec := repo.Get(id);
      if rec.Err? { return rec; }
      if rec.value.status != Captured && rec.value.status != PartialRefunded { return Err(InvalidState); }
      var delta := refundAmount;
      if delta == 0 { delta := Sub64(rec.value.captured, rec.value.refunded); }
      RefundTask(repo.State(), id, delta, outcome, now);
      hide ChangeFn;
      hide UpdateRecord;
      hide RunTasks;
      var refundID := repo.NextPaymentID();
      r := repo.Update(id, ChangeFn(AddRefundOp(delta, refundID, outcome), now));
    }

    method AuthorizeWallet(id: nat, kind: string, now: int) returns (r: Result<Record, Error>)
      modifies repo
      ensures Answers(r, repo, id, Perform(old(repo.State()), Wallet(kind), id, now))
    {
      var rec := repo.Get(id);
      if rec.Err? { return rec; }
      hide ChangeFn;
      hide UpdateRecord;
      hide RunTasks;
      ghost var authorize := Transition(Authorized, "wallet pay");
      ghost var kinds := if kind != "" then [Do(SetKind(kind))] else [];
      assert [Do(authorize)] + kinds + [Do(EnsureReference)] == [Do(authorize)] + (kinds + [Do(EnsureReference)]);
      FirstTask(repo.State(), id, authorize, kinds + [Do(EnsureReference)], now);
      TransitionIsChange(repo.State(), id, Authorized, "wallet pay", now);
      r := repo.Transition(id, AllowedTransitions(Authorized), Authorized, "wallet pay", now);
      if r.Err? { return; }
      if kind != "" {
        FirstTask(repo.State(), id, SetKind(kind), [Do(EnsureReference)], now);
        r := repo.Update(id, ChangeFn(SetKind(kind), now));
        if r.Err? { return; }
      } else {
        assert kinds + [Do(EnsureReference)] == [Do(EnsureReference)];
      }
      r := MakeReference(id, r.value, now);
    }

    method ApplyForce(id: nat, target: Status, now: int) returns (r: Result<Record, Error>)
      modifies repo
      ensures Answers(r, repo, id, Perform(old(repo.State()), Op.ApplyForce(target), id, now))
    {
      hide ChangeFn;
      hide UpdateRecord;
      hide RunTasks;
      if id !in repo.byID { return Err(NotFound); }
      ghost var force := Force(target, "panel force");
      ghost var rest := if target == Authorized || target == Captured then [Do(EnsureReference)] else [];
      FirstTask(repo.State(), id, force, rest, now);
      r := repo.Update(id, ChangeFn(Force(target, "panel force"), now));
      if r.Err? { return; }
      if target == Authorized || target == Captured {
        r := MakeReference(id, r.value, now);
      } else {
        NoTask(repo.State(), id, now);
      }
    }

    method EpayChargeOp(id: nat, amount: int64, now: int) returns (r: Result<Record, Error>)
      modifies repo
      ensures Answers(r, repo, id, Perform(old(repo.State()), EpayCharge(amount), id, now))
    {
      var rec := repo.Get(id);
      if rec.Err? { return rec; }
      if rec.value.bank != Epay { return Err(InvalidState); }
      if rec.value.status != Authorized { return Err(InvalidState); }
      var target := Requested(amount, rec.value.amount);
      OneTask(repo.State(), id, SetCaptured(target, "epay charge"), now);
      r := repo.Update(id, ChangeFn(SetCaptured(target, "epay charge"), now));
    }

    method EpayCancelOp(id: nat, now: int) returns (r: Result<Record, Error>)
      modifies repo
      ensures Answers(r, repo, id, Perform(old(repo.State()), EpayCancel, id, now))
    {
      var rec := repo.Get(id);
      if rec.Err? { return rec; }
      if rec.value.bank != Epay { return Err(InvalidState); }
      if rec.value.status != Authorized { return Err(InvalidState); }
      OneTask(repo.State(), id, Transition(Cancelled, "epay cancel"), now);
      TransitionIsChange(repo.State(), id, Cancelled, "epay cancel", now);
      r := repo.Transition(id, AllowedTransitions(Cancelled), Cancelled, "epay cancel", now);
    }

    method EpayRefundOp(id: nat, amount: int64, now: int) returns (r: Result<Record, Error>)
      modifies repo
      ensures Answers(r, repo, id, Perform(old(repo.State()), EpayRefund(amount), id, now))
    {
      var rec := repo.Get(id);
      if rec.Err? { return rec; }
      if rec.value.bank != Epay { return Err(InvalidState); }
      if rec.value.status != Captured && rec.value.status != PartialRefunded { return Err(InvalidState); }
      var delta := Requested(amount, Sub64(rec.value.captured, rec.value.refunded));
      ghost var c := AddRefund(delta, "epay refund full", "epay refund partial");
      OneTask(repo.State(), id, c, now);
      r := repo.Update(id, ChangeFn(AddRefund(delta, "epay refund full", "epay refund partial"), now));
    }

    method EpayRevealOp(id: nat, now: int) returns (r: Result<Record, Error>)
      modifies repo
      ensures Answers(r, repo, id, Perform(old(repo.State()), EpayReveal, id, now))
    {
      OneTask(repo.State(), id, Reveal, now);
      r := repo.Update(id, ChangeFn(Reveal, now));
    }

    method FlittCaptureOp(id: nat, amount: uint64, now: int) returns (r: Result<Record, Error>)
      modifies repo
      ensures Answers(r, repo, id, Perform(old(repo.State()), FlittCapture(amount), id, now))
    {
      var rec := repo.Get(id);
      if rec.Err? { return rec; }
      if rec.value.bank != Flitt { return Err(InvalidState); }
      if rec.value.status != Authorized { return Err(InvalidState); }
      var target := amount;
      if target == 0 { target := rec.value.amount; }
      OneTask(repo.State(), id, SetCaptured(target, "flitt capture"), now);
      r := repo.Update(id, ChangeFn(SetCaptured(target, "flitt capture"), now));
    }

    method FlittReverseOp(id: nat, amount: uint64, now: int) returns (r: Result<Record, Error>)
      modifies repo
      ensures Answers(r, repo, id, Perform(old(repo.State()), FlittReverse(amount), id, now))
    {
      var rec := repo.Get(id);
      if rec.Err? { return rec; }
      if rec.value.bank != Flitt { return Err(InvalidState); }
      match rec.value.status {
        case Authorized =>
          OneTask(repo.State(), id, Transition(Cancelled, "flitt cancel"), now);
          TransitionIsChange(repo.State(), id, Cancelled, "flitt cancel", now);
          r := repo.Transition(id, AllowedTransitions(Cancelled), Cancelled, "flitt cancel", now);
        case Captured | PartialRefunded =>
          var delta := amount;
          if delta == 0 { delta := Sub64(rec.value.captured, rec.value.refunded); }
          ghost var c := AddRefund(delta, "flitt refund full", "flitt refund partial");
          OneTask(repo.State(), id, c, now);
          r := repo.Update(id, ChangeFn(AddRefund(delta, "flitt refund full", "flitt refund partial"), now));
        case _ =>
          r := Err(InvalidState);
      }
    }

    method FlittComplete3DSOp(id: nat, now: int) returns (r: Result<Record, Error>)
      modifies repo
      ensures Answers(r, repo, id, Perform(old(repo.State()), FlittComplete3DS, id, now))
    {
      var rec := repo.Get(id);
      if rec.Err? { return rec; }
      if rec.value.bank != Flitt { return Err(InvalidState); }
      if rec.value.status != New { return rec; }
      OneTask(repo.State(), id, Transition(Authorized, "flitt 3ds step2"), now);
      TransitionIsChange(repo.State(), id, Authorized, "flitt 3ds step2", now);
      r := repo.Transition(id, AllowedTransitions(Authorized), Authorized, "flitt 3ds step2", now);
    }

    /** The updates that follow `Create`, stopping at the first that fails. */
    method ApplyAll(id: nat, changes: seq<Change>, now: int) returns (r: Result<Record, Error>)
      requires id in repo.byID
      modifies repo
      ensures Answers(r, repo, id, RunTasks(old(repo.State()), id, DoAll(changes), now))
    {
      hide ChangeFn;
      hide UpdateRecord;
      r := Ok(repo.byID[id]);
      ghost var result := RunTasks(repo.State(), id, DoAll(changes), now);
      var i := 0;
      assert DoAll(changes)[0..] == DoAll(changes);
      while i < |changes|
        invariant 0 <= i <= |changes|
        invariant RunTasks(repo.State(), id, DoAll(changes)[i..], now) == result
        invariant id in repo.byID && r == Ok(repo.byID[id])
      {
        assert DoAll(changes)[i..] == [Do(changes[i])] + DoAll(changes)[i + 1..];
        FirstTask(repo.State(), id, changes[i], DoAll(changes)[i + 1..], now);
        r := repo.Update(id, ChangeFn(changes[i], now));
        if r.Err? { return; }
        i := i + 1;
      }
    }

    /** The nine constructors: validate, take an id, create, then the updates of `AfterCreate`. */
    method NewPayment(c: Creation, now: int) returns (id: nat, r: Result<Record, Error>)
      modifies repo
      ensures Answers(r, repo, id, CreatePayment(old(repo.State()), c, now))
      ensures Acceptable(c) ==> id == old(repo.nextID) + 1
    {
      hide ChangeFn;
      hide UpdateRecord;
      hide RunTasks;
      hide AfterCreate;
      hide Blueprint;
      id := 0;
      if !Acceptable(c) { return 0, Err(BadInput); }
      id := repo.NextPaymentID();
      var rec := Blueprint(c, id, now);
      repo.Create(rec, now);
      r := ApplyAll(id, AfterCreate(c), now);
      var verdict := Verdict(c);
      if r.Ok? && verdict.Some? { r := Err(verdict.value); }
    }
  }
}
