/** Halyk Epay check-status: hidden operations, reads by invoice, and finding an operation by its id. */
module EpayStatus {
  import opened Text
  import opened Decimal
  import opened Pay
  import opened PayStore
  import opened PayRecords
  import opened PayThreads
  import opened StatusAnswers

  // ------------------------------------------------------------ reads by invoice

  predicate Visible(st: Store, invoice: string, now: int, id: nat) {
    && id in st.byID && st.byID[id].bank == Epay && st.byID[id].epayInvoiceID == invoice
    && !st.byID[id].EpayHidden(now)
  }

  /** The answer to a read by invoice: the latest operation that the bank already shows. */
  ghost predicate ByInvoice(st: Store, invoice: string, now: int, found: Option<Record>) {
    match found
    case None => forall id :: !Visible(st, invoice, now, id)
    case Some(r) =>
      && Visible(st, invoice, now, r.paymentID) && st.byID[r.paymentID] == r
      && forall id: nat :: Visible(st, invoice, now, id) ==> id <= r.paymentID
  }

  ghost predicate KeyedByID(st: Store) {
    forall id :: id in st.byID ==> st.byID[id].paymentID == id
  }

  method PaymentByInvoice(repo: PayRepo, list: seq<Record>, invoice: string, now: int) returns (found: Option<Record>)
    requires IsListing(list, repo.State()) && KeyedByID(repo.State())
    ensures ByInvoice(repo.State(), invoice, now, found)
  {
    found := None;
    for i := 0 to |list|
      invariant found.Some? ==> found.value in list[..i] && Visible(repo.State(), invoice, now, found.value.paymentID)
      invariant forall k :: 0 <= k < i && Visible(repo.State(), invoice, now, list[k].paymentID) ==>
                  found.Some? && list[k].paymentID <= found.value.paymentID
    {
      var rec := list[i];
      assert rec in list;
      if rec.bank != Epay || rec.epayInvoiceID != invoice || rec.EpayHidden(now) { continue; }
      if found.None? || rec.paymentID > found.value.paymentID {
        found := Some(rec);
      }
    }
    assert list[..|list|] == list;
    forall id: nat | Visible(repo.State(), invoice, now, id) ensures found.Some? && id <= found.value.paymentID {
      assert repo.State().byID[id] in list;
    }
  }

  // -------------------------------------------------- what later events may change

  ghost predicate Outlives(r: Record, r': Record) {
    r.history <= r'.history && SameIdentity(r, r')
  }

  ghost predicate Kept(st: Store, st': Store) {
    forall id :: id in st.byID ==> id in st'.byID && Outlives(st.byID[id], st'.byID[id])
  }

  lemma ChangeOutlives(r: Record, c: Change, now: int)
    ensures Outlives(r, Changed(r, c, now).0)
  {
    ChangeKeepsIdentity(r, c, now);
    HistoryGrowsWithStatus(r, c, now);
    hide Changed;
  }

  lemma FireKeeps(s: Sys, e: Event)
    requires Numbers(s) && !e.Reset?
    ensures Kept(s.store, Fire(s, e).store)
  {
    hide PlanOf;
    if e.Advance? && e.i < |s.threads| {
      if s.threads[e.i].Creating? {
        CreateKeepsNumbers(s, e.i, e.now);
      } else if s.threads[e.i].tasks != [] && s.threads[e.i].tasks[0].Do? {
        var id, c := s.threads[e.i].id, s.threads[e.i].tasks[0].c;
        if id in s.store.byID { ChangeOutlives(s.store.byID[id], c, e.now); }
        hide Settle;
        hide Effect;
      }
    }
  }

  predicate NoReset(events: seq<Event>) {
    forall k :: 0 <= k < |events| ==> !events[k].Reset?
  }

  lemma {:induction false} RunKeeps(s: Sys, events: seq<Event>)
    requires Numbers(s) && NoReset(events)
    ensures Kept(s.store, Run(s, events).store)
    decreases |events|
  {
    if events != [] {
      hide Fire;
      hide Numbers;
      FireKeepsNumbers(s, events[0]);
      FireKeeps(s, events[0]);
      RunKeeps(Fire(s, events[0]), events[1..]);
    }
  }

  /**
   * Reads by invoice are monotone over every interleaving without a reset: while the clock does not go
   * back, an invoice once found stays found, and the operation found is never an older one.
   */
  lemma {:induction false} InvoiceReadsAreMonotone(base: nat, before: seq<Event>, after: seq<Event>, invoice: string,
                                                   now1: int, now2: int, first: Option<Record>, second: Option<Record>)
    requires NoReset(after) && now1 <= now2
    requires ByInvoice(Run(Start(base), before).store, invoice, now1, first)
    requires ByInvoice(Run(Run(Start(base), before), after).store, invoice, now2, second)
    ensures first.Some? ==> second.Some? && first.value.paymentID <= second.value.paymentID
  {
    hide Run;
    var s := Run(Start(base), before);
    ReachableIsOrdered(base, before, Anyone);
    RunKeeps(s, after);
    if first.Some? {
      assert Visible(Run(s, after).store, invoice, now2, first.value.paymentID);
    }
  }

  // ------------------------------------------------------------- late operations

  /** This event carries out a reveal of the operation. */
  predicate Reveals(s: Sys, e: Event, id: nat) {
    && e.Advance? && e.i < |s.threads| && s.threads[e.i].Updating? && s.threads[e.i].id == id
    && s.threads[e.i].tasks != [] && s.threads[e.i].tasks[0] == Do(Change.Reveal)
  }

  predicate NeverReveals(s: Sys, events: seq<Event>, id: nat)
    decreases |events|
  {
    events != [] ==> !Reveals(s, events[0], id) && NeverReveals(Fire(s, events[0]), events[1..], id)
  }

  lemma OnlyRevealShows(r: Record, c: Change, now: int)
    requires !c.Reveal?
    ensures Changed(r, c, now).0.epayVisibleAt == r.epayVisibleAt
  {
    hide Add64;
    hide Negated;
  }

  lemma FireKeepsHidden(s: Sys, e: Event, id: nat)
    requires Numbers(s) && !e.Reset? && id in s.store.byID && !Reveals(s, e, id)
    ensures id in Fire(s, e).store.byID && Fire(s, e).store.byID[id].epayVisibleAt == s.store.byID[id].epayVisibleAt
  {
    hide PlanOf;
    if e.Advance? && e.i < |s.threads| {
      if s.threads[e.i].Creating? {
        CreateKeepsNumbers(s, e.i, e.now);
      } else if s.threads[e.i].id == id && s.threads[e.i].tasks != [] && s.threads[e.i].tasks[0].Do? {
        OnlyRevealShows(s.store.byID[id], s.threads[e.i].tasks[0].c, e.now);
        hide Settle;
        hide Effect;
      }
    }
  }

  // --------------------------------------------------------------- status codes

  function PayStatusToEpay(s: Status): string {
    match s
    case Authorized => "AUTH"
    case Captured => "CHARGE"
    case Cancelled => "CANCEL"
    case Refunded => "REFUND"
    case PartialRefunded => "REFUND"
    case Failed => "FAILED"
    case _ => "NEW"
  }

  /** Check-status by the operation's id; None is "operation not found". */
  function StatusByID(st: Store, id: nat, now: int): Option<string> {
    if id !in st.byID || st.byID[id].EpayHidden(now) then None else Some(PayStatusToEpay(st.byID[id].status))
  }

  lemma RevealShows(s: Sys, e: Event, id: nat)
    requires Numbers(s) && id in s.store.byID && s.store.byID[id].bank == Epay && Reveals(s, e, id)
    ensures id in Fire(s, e).store.byID && Fire(s, e).store.byID[id].epayVisibleAt == None
  {
    hide Numbers;
  }

  /** An operation that was revealed on the way has no time left to wait for; any other keeps its own. */
  lemma {:induction false} RunShows(s: Sys, events: seq<Event>, id: nat)
    requires Numbers(s) && NoReset(events) && id in s.store.byID && s.store.byID[id].bank == Epay
    ensures id in Run(s, events).store.byID
    ensures Run(s, events).store.byID[id].epayVisibleAt
         == if NeverReveals(s, events, id) then s.store.byID[id].epayVisibleAt else None
    decreases |events|
  {
    if events != [] {
      var s' := Fire(s, events[0]);
      FireKeepsNumbers(s, events[0]);
      FireKeeps(s, events[0]);
      assert Outlives(s.store.byID[id], s'.store.byID[id]);
      if Reveals(s, events[0], id) {
        RevealShows(s, events[0], id);
        RunKeeps(s', events[1..]);
        assert Outlives(s'.store.byID[id], Run(s', events[1..]).store.byID[id]);
      } else {
        hide Fire, Numbers, Reveals;
        FireKeepsHidden(s, events[0], id);
        RunShows(s', events[1..], id);
      }
    }
  }

  /**
   * An operation is read from the time on that it is to show at, if any, or once it has been revealed, and not
   * before: by its id, and by its invoice unless a later operation of the invoice is read instead.
   */
  lemma {:induction false} LateShowsExactlyFromItsTime(base: nat, before: seq<Event>, after: seq<Event>, id: nat,
                                                       now: int, found: Option<Record>)
    requires NoReset(after)
    requires var s := Run(Start(base), before);
             && id in s.store.byID && s.store.byID[id].bank == Epay
             && ByInvoice(Run(s, after).store, s.store.byID[id].epayInvoiceID, now, found)
    ensures var s := Run(Start(base), before);
            var due := s.store.byID[id].epayVisibleAt;
            var shown := due.None? || due.value <= now || !NeverReveals(s, after, id);
            && (StatusByID(Run(s, after).store, id, now).Some? <==> shown)
            && (shown ==> found.Some? && found.value.paymentID >= id)
            && (!shown ==> found.None? || found.value.paymentID != id)
            && (found.Some? ==> found.value.bank == Epay && found.value.epayInvoiceID == s.store.byID[id].epayInvoiceID)
  {
    hide Run, NeverReveals, PayStatusToEpay;
    var s := Run(Start(base), before);
    ReachableIsOrdered(base, before, Anyone);
    RunShows(s, after, id);
    RunKeeps(s, after);
    var st, r := Run(s, after).store, s.store.byID[id];
    assert Outlives(r, st.byID[id]);
    assert Visible(st, r.epayInvoiceID, now, id)
      <==> r.epayVisibleAt.None? || r.epayVisibleAt.value <= now || !NeverReveals(s, after, id);
  }

  /**
   * Over every interleaving, an operation that nobody forces reads as NEW only if it was created as NEW and
   * has not moved since; a late one, created AUTHORIZED or CAPTURED, never does.
   */
  lemma {:induction false} NewIsOnlyTheBeginning(base: nat, events: seq<Event>, id: nat, now: int)
    requires NeverForced(events, id)
    ensures var st := Run(Start(base), events).store;
            StatusByID(st, id, now) == Some("NEW") ==>
              id in st.byID && |st.byID[id].history| == 1 && st.byID[id].history[0].to in {New, HoldPending}
  {
    hide Run;
    var st := Run(Start(base), events).store;
    if id in st.byID {
      RunIsSound(base, events, id);
      ReadsAsNew(st.byID[id].status);
    }
  }

  lemma NewIsFresh(r: Record)
    requires Sound(r, false)
    ensures PayStatusToEpay(r.status) == "NEW" ==> |r.history| == 1 && r.history[0].to in {New, HoldPending}
  {
    ReadsAsNew(r.status);
  }

  lemma ReadsAsNew(s: Status)
    ensures PayStatusToEpay(s) == "NEW" <==> s == New || s == HoldPending
  {
    assert PayStatusToEpay(s)[0] == 'N' <==> s == New || s == HoldPending;
  }

  lemma LateStartsAtWork(e: EpayInput, captured: bool, visibleAt: Option<int>, id: nat, now: int, at: int)
    requires EpayAcceptable(e)
    ensures var r := Created(Blueprint(EpayLate(e, captured, visibleAt), id, now), at);
            && r.epayVisibleAt == visibleAt && |r.history| == 1
            && r.history[0].to == if captured then Captured else Authorized
  {
  }

  /** An operation that was created at work, as late ones are, never reads as NEW. */
  lemma {:induction false} LateNeverReadsAsNew(base: nat, before: seq<Event>, after: seq<Event>, id: nat, now: int)
    requires NeverForced(before, id) && NeverForced(after, id) && NoReset(after)
    requires var st := Run(Start(base), before).store;
             id in st.byID && st.byID[id].history != [] && st.byID[id].history[0].to in {Authorized, Captured}
    ensures var st := Run(Run(Start(base), before), after).store;
            StatusByID(st, id, now) != Some("NEW") && id in st.byID && PayStatusToEpay(st.byID[id].status) != "NEW"
  {
    hide Run;
    hide Sound;
    var s := Run(Start(base), before);
    ReachableIsOrdered(base, before, Anyone);
    RunKeeps(s, after);
    RunAppend(Start(base), before, after);
    assert NeverForced(before + after, id);
    RunIsSound(base, before + after, id);
    NewIsFresh(Run(s, after).store.byID[id]);
    assert Outlives(s.store.byID[id], Run(s, after).store.byID[id]);
  }

  // --------------------------------------------------- revealing a whole invoice

  predicate HiddenOf(r: Record, invoice: string, now: int) {
    r.bank == Epay && r.epayInvoiceID == invoice && r.EpayHidden(now)
  }

  function Shown(r: Record, invoice: string, now: int): Record {
    if HiddenOf(r, invoice, now) then r.(epayVisibleAt := None) else r
  }

  function HiddenIn(list: seq<Record>, invoice: string, now: int): nat {
    if list == [] then 0
    else HiddenIn(list[..|list| - 1], invoice, now) + (if HiddenOf(list[|list| - 1], invoice, now) then 1 else 0)
  }

  /** `List` as a snapshot: every record once. */
  ghost predicate IsSnapshot(list: seq<Record>, st: Store) {
    && IsListing(list, st)
    && (forall i, j :: 0 <= i < j < |list| ==> list[i].paymentID != list[j].paymentID)
  }

  lemma RevealIsClear(st: Store, id: nat, now: int)
    requires id in st.byID && st.byID[id].bank == Epay
    ensures Perform(st, EpayReveal, id, now) == (st.(byID := st.byID[id := st.byID[id].(epayVisibleAt := None)]), None)
  {
    OneTask(st, id, Change.Reveal, now);
  }

  method RevealOne(service: Service, id: nat, now: int) returns (ok: bool)
    requires id in service.repo.byID && service.repo.byID[id].bank == Epay
    modifies service.repo
    ensures var st := old(service.repo.State());
            ok && service.repo.State() == st.(byID := st.byID[id := st.byID[id].(epayVisibleAt := None)])
  {
    RevealIsClear(service.repo.State(), id, now);
    hide Perform;
    var r := service.EpayRevealOp(id, now);
    ok := r.Ok?;
  }

  /** The store once the payments of `seen` have been dealt with. */
  ghost predicate PartlyShown(st: Store, st': Store, seen: set<nat>, invoice: string, now: int) {
    && st'.byID.Keys == st.byID.Keys && st'.byOrder == st.byOrder && st'.nextID == st.nextID
    && forall id :: id in st.byID ==>
         st'.byID[id] == if id in seen then Shown(st.byID[id], invoice, now) else st.byID[id]
  }

  lemma ShowNext(st: Store, st': Store, seen: set<nat>, id: nat, invoice: string, now: int)
    requires PartlyShown(st, st', seen, invoice, now) && id in st.byID && id !in seen
    ensures id in st'.byID && st'.byID[id] == st.byID[id]
    ensures PartlyShown(st, st'.(byID := st'.byID[id := Shown(st.byID[id], invoice, now)]), seen + {id}, invoice, now)
  {
    hide Shown;
  }

  ghost function IDs(list: seq<Record>): set<nat> {
    set r | r in list :: r.paymentID
  }

  lemma NextID(st: Store, list: seq<Record>, i: nat)
    requires IsSnapshot(list, st) && KeyedByID(st) && i < |list|
    ensures list[i].paymentID in st.byID && st.byID[list[i].paymentID] == list[i]
    ensures list[i].paymentID !in IDs(list[..i]) && IDs(list[..i + 1]) == IDs(list[..i]) + {list[i].paymentID}
  {
    assert list[i] in list;
    assert list[..i + 1] == list[..i] + [list[i]];
  }

  lemma EveryID(st: Store, list: seq<Record>)
    requires IsSnapshot(list, st) && KeyedByID(st)
    ensures IDs(list[..|list|]) == st.byID.Keys
  {
    assert list[..|list|] == list;
    forall id | id in st.byID ensures id in IDs(list) {
      assert st.byID[id] in list && st.byID[id].paymentID == id;
    }
  }

  /** `EpayRevealInvoice`, undisturbed: every hidden operation of the invoice is shown, nothing else changes. */
  method EpayRevealInvoice(service: Service, list: seq<Record>, invoice: string, now: int) returns (revealed: nat)
    requires IsSnapshot(list, service.repo.State()) && KeyedByID(service.repo.State())
    modifies service.repo
    ensures var st, st' := old(service.repo.State()), service.repo.State();
            && st'.byID.Keys == st.byID.Keys && st'.byOrder == st.byOrder && st'.nextID == st.nextID
            && (forall id :: id in st.byID ==> st'.byID[id] == Shown(st.byID[id], invoice, now))
    ensures revealed == HiddenIn(list, invoice, now)
    ensures forall id :: id in service.repo.State().byID ==> !HiddenOf(service.repo.State().byID[id], invoice, now)
  {
    hide IsSnapshot, KeyedByID, Halfway, HiddenIn, Shown;
    var repo := service.repo;
    ghost var st := repo.State();
    revealed := 0;
    NothingSeen(st, list, invoice, now);
    for i := 0 to |list|
      invariant Halfway(st, repo.State(), list, i, invoice, now, revealed)
    {
      var rec := list[i];
      HalfwayNext(st, repo.State(), list, i, invoice, now, revealed);
      if rec.bank != Epay || rec.epayInvoiceID != invoice || !rec.EpayHidden(now) { continue; }
      var ok := RevealOne(service, rec.paymentID, now);
      if ok { revealed := revealed + 1; }
    }
    AllSeen(st, repo.State(), list, invoice, now, revealed);
  }

  /** The loop at record `i` of the listing. */
  ghost predicate Halfway(st: Store, st': Store, list: seq<Record>, i: nat, invoice: string, now: int, revealed: nat) {
    i <= |list| && PartlyShown(st, st', IDs(list[..i]), invoice, now) && revealed == HiddenIn(list[..i], invoice, now)
  }

  lemma NothingSeen(st: Store, list: seq<Record>, invoice: string, now: int)
    ensures Halfway(st, st, list, 0, invoice, now, 0)
  {
    assert IDs(list[..0]) == {};
  }

  lemma HalfwayNext(st: Store, st': Store, list: seq<Record>, i: nat, invoice: string, now: int, revealed: nat)
    requires IsSnapshot(list, st) && KeyedByID(st) && i < |list| && Halfway(st, st', list, i, invoice, now, revealed)
    ensures var rec := list[i];
            && rec.paymentID in st'.byID && st'.byID[rec.paymentID] == rec
            && if HiddenOf(rec, invoice, now)
               then Halfway(st, st'.(byID := st'.byID[rec.paymentID := rec.(epayVisibleAt := None)]), list, i + 1,
                            invoice, now, revealed + 1)
               else Halfway(st, st', list, i + 1, invoice, now, revealed)
  {
    hide PartlyShown, HiddenIn, Shown, IsSnapshot, KeyedByID, IDs;
    var rec := list[i];
    NextID(st, list, i);
    HiddenNext(list, i, invoice, now);
    ShowNext(st, st', IDs(list[..i]), rec.paymentID, invoice, now);
    ShownMeans(rec, invoice, now);
    assert st'.byID[rec.paymentID := rec] == st'.byID;
    assert st'.(byID := st'.byID) == st';
  }

  lemma {:induction false} AllSeen(st: Store, st': Store, list: seq<Record>, invoice: string, now: int, revealed: nat)
    requires IsSnapshot(list, st) && KeyedByID(st) && Halfway(st, st', list, |list|, invoice, now, revealed)
    ensures st'.byID.Keys == st.byID.Keys && st'.byOrder == st.byOrder && st'.nextID == st.nextID
    ensures forall id :: id in st.byID ==> st'.byID[id] == Shown(st.byID[id], invoice, now)
    ensures forall id :: id in st'.byID ==> !HiddenOf(st'.byID[id], invoice, now)
    ensures revealed == HiddenIn(list, invoice, now)
  {
    assert list[..|list|] == list;
    EveryID(st, list);
    NothingHidden(st, st', invoice, now);
  }

  lemma HiddenNext(list: seq<Record>, i: nat, invoice: string, now: int)
    requires i < |list|
    ensures HiddenIn(list[..i + 1], invoice, now)
         == HiddenIn(list[..i], invoice, now) + (if HiddenOf(list[i], invoice, now) then 1 else 0)
  {
    assert list[..i + 1][..i] == list[..i];
  }

  lemma ShownMeans(r: Record, invoice: string, now: int)
    ensures Shown(r, invoice, now) == if HiddenOf(r, invoice, now) then r.(epayVisibleAt := None) else r
  {
  }

  lemma {:induction false} NothingHidden(st: Store, st': Store, invoice: string, now: int)
    requires PartlyShown(st, st', st.byID.Keys, invoice, now)
    ensures forall id :: id in st'.byID ==> !HiddenOf(st'.byID[id], invoice, now)
  {
  }

  // ------------------------------------------------- finding an operation by its id

  const EPAY_PREFIX := "mock-epay-"

  /** The number that `operationIDFromPath` reads out of the path segment, 0 for none. */
  function FastID(raw: string): nat {
    if |raw| > |EPAY_PREFIX| && raw[..|EPAY_PREFIX|] == EPAY_PREFIX then
      match ParseUint(raw[|EPAY_PREFIX|..])
      case Some(n) => n
      case None => 0
    else 0
  }

  /** The scan over `List` by `EpayID`. */
  ghost predicate Scanned(st: Store, raw: string, found: Option<nat>) {
    match found
    case None => forall id :: id in st.byID ==> st.byID[id].epayID != raw
    case Some(n) => exists id :: id in st.byID && st.byID[id].epayID == raw && st.byID[id].paymentID == n
  }

  ghost predicate Resolved(st: Store, raw: string, found: Option<nat>) {
    if FastID(raw) != 0 then found == Some(FastID(raw))
    else if raw == "" then found == None
    else Scanned(st, raw, found)
  }

  method ScanByEpayID(list: seq<Record>, ghost st: Store, raw: string) returns (found: Option<nat>)
    requires IsListing(list, st)
    ensures Scanned(st, raw, found)
  {
    for i := 0 to |list|
      invariant forall k :: 0 <= k < i ==> list[k].epayID != raw
    {
      if list[i].epayID == raw {
        assert list[i] in list;
        return Some(list[i].paymentID);
      }
    }
    forall id | id in st.byID ensures st.byID[id].epayID != raw {
      assert st.byID[id] in list;
    }
    found := None;
  }

  method ResolveOperation(list: seq<Record>, ghost st: Store, raw: string) returns (found: Option<nat>)
    requires IsListing(list, st)
    ensures Resolved(st, raw, found)
  {
    var pid := FastID(raw);
    if pid != 0 { return Some(pid); }
    if raw == "" { return None; }
    found := ScanByEpayID(list, st, raw);
  }

  ghost predicate EpayNamed(r: Record) {
    r.epayID == if r.bank == Epay then EPAY_PREFIX + FormatUint(r.paymentID) else ""
  }

  ghost predicate AllNamed(s: Sys) {
    && (forall id :: id in s.store.byID ==> EpayNamed(s.store.byID[id]))
    && (forall t :: 0 <= t < |s.threads| && s.threads[t].Creating? ==> EpayNamed(s.threads[t].rec))
  }

  lemma BlueprintIsNamed(c: Creation, id: nat, now: int)
    requires Acceptable(c)
    ensures EpayNamed(Blueprint(c, id, now))
  {
  }

  lemma FireKeepsNamed(s: Sys, e: Event)
    requires AllNamed(s)
    ensures AllNamed(Fire(s, e))
  {
    hide PlanOf, Blueprint, AfterCreate, FormatUint;
    if e.BeginCreate? && Acceptable(e.c) {
      BlueprintIsNamed(e.c, s.store.nextID + 1, e.at);
    } else if e.Advance? && e.i < |s.threads| && s.threads[e.i].Updating? && s.threads[e.i].tasks != [] {
      var id, t := s.threads[e.i].id, s.threads[e.i].tasks[0];
      if id in s.store.byID && t.Do? { ChangeKeepsIdentity(s.store.byID[id], t.c, e.now); }
      hide Settle;
      hide Effect;
    }
  }

  lemma {:induction false} RunKeepsNamed(s: Sys, events: seq<Event>)
    requires AllNamed(s)
    ensures AllNamed(Run(s, events))
    decreases |events|
  {
    if events != [] {
      FireKeepsNamed(s, events[0]);
      hide Fire;
      RunKeepsNamed(Fire(s, events[0]), events[1..]);
    }
  }

  lemma FastIDOfName(n: nat)
    requires 0 < n < TWO_64
    ensures FastID(EPAY_PREFIX + FormatUint(n)) == n
  {
    var raw := EPAY_PREFIX + FormatUint(n);
    assert raw[|EPAY_PREFIX|..] == FormatUint(n) && raw[..|EPAY_PREFIX|] == EPAY_PREFIX;
    ParseFormatUint(n);
  }

  lemma FastIDOfAnyName(n: nat)
    ensures FastID(EPAY_PREFIX + FormatUint(n)) == n || FastID(EPAY_PREFIX + FormatUint(n)) == 0
  {
    var raw := EPAY_PREFIX + FormatUint(n);
    assert raw[|EPAY_PREFIX|..] == FormatUint(n) && raw[..|EPAY_PREFIX|] == EPAY_PREFIX;
    ValueOfFormat(n);
  }

  lemma {:induction false} ScanIsUnique(st: Store, raw: string, id: nat, found: Option<nat>)
    requires KeyedByID(st) && forall k :: k in st.byID ==> EpayNamed(st.byID[k])
    requires raw != "" && id in st.byID && st.byID[id].epayID == raw && Scanned(st, raw, found)
    ensures found == Some(id) && st.byID[id].bank == Epay && raw == EPAY_PREFIX + FormatUint(id)
  {
    hide FormatUint;
    assert EpayNamed(st.byID[id]);
    assert st.byID[id].epayID == raw;
    assert found.Some?;
    var other :| other in st.byID && st.byID[other].epayID == raw && st.byID[other].paymentID == found.value;
    assert EpayNamed(st.byID[other]);
    ValueOfFormat(id);
    ValueOfFormat(other);
    assert raw[|EPAY_PREFIX|..] == FormatUint(id) && raw[|EPAY_PREFIX|..] == FormatUint(other);
  }

  /** Every stored Epay payment is found by its own id, by the fast path and by the scan alike. */
  lemma {:induction false} StoredOperationIsFound(base: nat, events: seq<Event>, id: nat,
                                                  fast: Option<nat>, scanned: Option<nat>)
    requires var st := Run(Start(base), events).store;
             && id in st.byID && st.byID[id].bank == Epay && 0 < id < TWO_64
             && Resolved(st, st.byID[id].epayID, fast) && Scanned(st, st.byID[id].epayID, scanned)
    ensures fast == scanned == Some(id)
  {
    hide Run;
    hide FormatUint;
    hide FastID;
    var st := Run(Start(base), events).store;
    ReachableIsOrdered(base, events, Anyone);
    RunKeepsNamed(Start(base), events);
    assert EpayNamed(st.byID[id]);
    FastIDOfName(id);
    ScanIsUnique(st, st.byID[id].epayID, id, scanned);
  }

  /** The fast path never looks whether the payment is there, so it can answer where a scan finds nothing. */
  lemma {:induction false} FastPathAgreesWithScan(base: nat, events: seq<Event>, raw: string,
                                                  fast: Option<nat>, scanned: Option<nat>)
    requires var st := Run(Start(base), events).store; Resolved(st, raw, fast) && Scanned(st, raw, scanned)
    requires raw != ""
    ensures var st := Run(Start(base), events).store;
            var n := FastID(raw);
            (fast == scanned
             <==> n == 0 || (n in st.byID && st.byID[n].bank == Epay && raw == EPAY_PREFIX + FormatUint(n)))
  {
    hide Run;
    hide FormatUint;
    hide FastID;
    var st := Run(Start(base), events).store;
    ReachableIsOrdered(base, events, Anyone);
    RunKeepsNamed(Start(base), events);
    if scanned.Some? {
      var id :| id in st.byID && st.byID[id].epayID == raw && st.byID[id].paymentID == scanned.value;
      ScanIsUnique(st, raw, id, scanned);
      FastIDOfAnyName(id);
      if FastID(raw) == 0 { ScanIsUnique(st, raw, id, fast); }
    }
  }
}
