/** The life of a QR code: status changes, refund confirmation and the timer that expires it. */
module QrLife {
  import opened Text

  datatype Status = New | Scanned | Success | Expired | Cancelled | Failed | Other(name: string)

  predicate IsTerminal(s: Status) {
    s == Success || s == Expired || s == Cancelled || s == Failed
  }

  datatype Error = NotFound | Terminal | AlreadyConfirmed | NotScanned | NotRefund

  datatype Code = Code(uuid: string, status: Status, amount: real, isRefund: bool, trnID: int, webhookSent: bool,
                       reference: string, parentTrnID: string, refunded: real)

  /** The repository: the codes by UUID, and the counter behind transaction ids. */
  datatype Book = Book(codes: map<string, Code>, trnCounter: nat)

  /** Five minutes, and the second more that the context of the timer goroutine lives, in milliseconds. */
  const TTL: nat := 300_000
  const GRACE: nat := 1_000

  function NewTrnID(b: Book, now: int): int { now + b.trnCounter + 1 }

  /** `QRRepo.UpdateStatus` at clock reading `now`. */
  function StatusUpdated(b: Book, uuid: string, status: Status, now: int): (Book, Result<Code, Error>) {
    if uuid !in b.codes then (b, Err(NotFound))
    else if IsTerminal(b.codes[uuid].status) then (b, Err(Terminal))
    else if status == Success then
      var c := b.codes[uuid].(status := status, trnID := NewTrnID(b, now));
      (Book(b.codes[uuid := c], b.trnCounter + 1), Ok(c))
    else
      var c := b.codes[uuid].(status := status);
      (b.(codes := b.codes[uuid := c]), Ok(c))
  }

  /** `QRRepo.ApplyRefundConfirmation`. */
  function RefundConfirmed(b: Book, uuid: string, reference: string, parent: string, amount: real, now: int)
    : (Book, Result<Code, Error>)
  {
    if uuid !in b.codes then (b, Err(NotFound))
    else
      var c := b.codes[uuid];
      if !c.isRefund then (b, Err(NotRefund))
      else if c.status == Success then (b, Err(AlreadyConfirmed))
      else if c.status != Scanned then (b, Err(NotScanned))
      else
        var c' := c.(status := Success, trnID := NewTrnID(b, now), amount := amount, reference := reference,
                     parentTrnID := parent, refunded := amount);
        (Book(b.codes[uuid := c'], b.trnCounter + 1), Ok(c'))
  }

  /** `QRRepo.MarkWebhookSent`. */
  function WebhookMarked(b: Book, uuid: string): (Book, Result<Code, Error>) {
    if uuid !in b.codes then (b, Err(NotFound))
    else if !IsTerminal(b.codes[uuid].status) then (b, Err(Terminal))
    else
      var c := b.codes[uuid].(webhookSent := true);
      (b.(codes := b.codes[uuid := c]), Ok(c))
  }

  /** A webhook, counted when its goroutine starts, with the copy of the code that it carries. */
  datatype Webhook = Webhook(code: Code, manual: bool)

  function MaybeWebhook(sent: seq<Webhook>, code: Code, manual: bool): seq<Webhook> {
    if IsTerminal(code.status) then sent + [Webhook(code, manual)] else sent
  }

  // -------------------------------------------------------------- the objects

  class QRRepo {
    var codes: map<string, Code>
    var trnCounter: nat

    constructor ()
      ensures State() == Book(map[], 0)
    {
      codes, trnCounter := map[], 0;
    }

    ghost function State(): Book
      reads this
    {
      Book(codes, trnCounter)
    }

    method Create(code: Code)
      modifies this
      ensures State() == Book(old(codes)[code.uuid := code], old(trnCounter))
    {
      codes := codes[code.uuid := code];
    }

    method UpdateStatus(uuid: string, status: Status, now: int) returns (r: Result<Code, Error>)
      modifies this
      ensures (State(), r) == StatusUpdated(old(State()), uuid, status, now)
    {
      if uuid !in codes { return Err(NotFound); }
      if IsTerminal(codes[uuid].status) { return Err(Terminal); }
      codes := codes[uuid := codes[uuid].(status := status)];
      if status == Success {
        trnCounter := trnCounter + 1;
        codes := codes[uuid := codes[uuid].(trnID := now + trnCounter)];
        assert codes == old(codes)[uuid := codes[uuid]];
      }
      r := Ok(codes[uuid]);
    }

    method ApplyRefundConfirmation(uuid: string, reference: string, parent: string, amount: real, now: int)
      returns (r: Result<Code, Error>)
      modifies this
      ensures (State(), r) == RefundConfirmed(old(State()), uuid, reference, parent, amount, now)
    {
      if uuid !in codes { return Err(NotFound); }
      var c := codes[uuid];
      if !c.isRefund { return Err(NotRefund); }
      if c.status == Success { return Err(AlreadyConfirmed); }
      if c.status != Scanned { return Err(NotScanned); }
      trnCounter := trnCounter + 1;
      c := c.(status := Success, trnID := now + trnCounter);
      c := c.(amount := amount, reference := reference, parentTrnID := parent, refunded := amount);
      codes := codes[uuid := c];
      r := Ok(c);
    }

    method MarkWebhookSent(uuid: string) returns (r: Result<Code, Error>)
      modifies this
      ensures (State(), r) == WebhookMarked(old(State()), uuid)
    {
      if uuid !in codes { return Err(NotFound); }
      if !IsTerminal(codes[uuid].status) { return Err(Terminal); }
      codes := codes[uuid := codes[uuid].(webhookSent := true)];
      r := Ok(codes[uuid]);
    }

    method Reset()
      modifies this
      ensures State() == Book(map[], old(trnCounter))
    {
      codes := map[];
    }
  }

  class QRService {
    const repo: QRRepo
    var sent: seq<Webhook>

    constructor (repo: QRRepo)
      ensures this.repo == repo && sent == []
    {
      this.repo, sent := repo, [];
    }

    method ChangeStatus(uuid: string, status: Status, now: int) returns (r: Result<Code, Error>)
      modifies this, repo
      ensures (repo.State(), r) == StatusUpdated(old(repo.State()), uuid, status, now)
      ensures sent == if r.Ok? then MaybeWebhook(old(sent), r.value, false) else old(sent)
    {
      r := repo.UpdateStatus(uuid, status, now);
      if r.Err? { return; }
      if IsTerminal(r.value.status) {
        sent := MaybeWebhook(sent, r.value, false);
      }
    }

    method SendWebhook(uuid: string) returns (r: Result<Code, Error>)
      modifies this, repo
      ensures (repo.State(), r) == WebhookMarked(old(repo.State()), uuid)
      ensures sent == if r.Ok? then MaybeWebhook(old(sent), r.value, true) else old(sent)
    {
      r := repo.MarkWebhookSent(uuid);
      if r.Err? { return; }
      sent := MaybeWebhook(sent, r.value, true);
    }
  }

  // ------------------------------------------------------- the concurrent system

  /**
   * The goroutine that expires one code: started; with its context made; asleep, with its timer made too;
   * between its read and its write; and over. The context is made before the timer, at an instant of its own.
   */
  datatype Phase = Starting | Timing(context: int) | Sleeping(context: int, timer: int) | Deciding | Over(byTimer: bool)

  datatype Timer = Timer(uuid: string, phase: Phase)

  /** A code becoming terminal, and whether by the confirmation of a refund. */
  datatype Ending = Ending(uuid: string, status: Status, confirmed: bool)

  datatype Issue = Issue(uuid: string, trnID: int)

  datatype Sys = Sys(book: Book, now: int, timers: seq<Timer>, used: set<string>,
                     sent: seq<Webhook>, endings: seq<Ending>, issued: seq<Issue>)

  datatype Event =
    | Generate(uuid: string, isRefund: bool, amount: real)
    | Tick(ms: nat)
    | ContextStarts(i: nat)
    | TimerStarts(i: nat)
    | TimerFires(i: nat)
    | TimerExpires(i: nat)
    | ContextEnds(i: nat)
    | Change(uuid: string, status: Status)
    | Confirm(uuid: string, reference: string, parent: string, amount: real)
    | SendManually(uuid: string)
    | Reset

  function Start(now: int): Sys { Sys(Book(map[], 0), now, [], {}, [], [], []) }

  /** What the run records about a status change that went through. */
  function Recorded(s: Sys, b: Book, r: Result<Code, Error>, confirmed: bool): Sys {
    if r.Err? || !IsTerminal(r.value.status) then s.(book := b)
    else
      var c := r.value;
      s.(book := b, endings := s.endings + [Ending(c.uuid, c.status, confirmed)],
         sent := if confirmed then s.sent else MaybeWebhook(s.sent, c, false),
         issued := if c.status == Success then s.issued + [Issue(c.uuid, c.trnID)] else s.issued)
  }

  function Changed(s: Sys, uuid: string, status: Status): Sys {
    var (b, r) := StatusUpdated(s.book, uuid, status, s.now);
    Recorded(s, b, r, false)
  }

  /** The timer's channel is ready. */
  predicate TimerIsUp(phase: Phase, now: int) {
    phase.Sleeping? && phase.timer + TTL <= now
  }

  /** The context's channel is ready; when both are, `select` takes either. */
  predicate ContextIsUp(phase: Phase, now: int) {
    phase.Sleeping? && phase.context + TTL + GRACE <= now
  }

  function Fire(s: Sys, e: Event): Sys {
    match e
    case Generate(uuid, isRefund, amount) =>
      if uuid in s.used then s
      else
        var c := Code(uuid, New, amount, isRefund, 0, false, "", "", 0.0);
        s.(book := s.book.(codes := s.book.codes[uuid := c]), used := s.used + {uuid},
           timers := s.timers + [Timer(uuid, Starting)])
    case Tick(ms) => s.(now := s.now + ms)
    case ContextStarts(i) => if i < |s.timers| && s.timers[i].phase.Starting? then SetPhase(s, i, Timing(s.now)) else s
    case TimerStarts(i) =>
      if i < |s.timers| && s.timers[i].phase.Timing? then SetPhase(s, i, Sleeping(s.timers[i].phase.context, s.now))
      else s
    case TimerFires(i) => if i < |s.timers| && TimerIsUp(s.timers[i].phase, s.now) then Woken(s, i) else s
    case TimerExpires(i) =>
      if i < |s.timers| && s.timers[i].phase.Deciding? then
        SetPhase(Changed(s, s.timers[i].uuid, Expired), i, Over(true))
      else s
    case ContextEnds(i) =>
      if i < |s.timers| && ContextIsUp(s.timers[i].phase, s.now) then SetPhase(s, i, Over(false)) else s
    case Change(uuid, status) => Changed(s, uuid, status)
    case Confirm(uuid, reference, parent, amount) =>
      var (b, r) := RefundConfirmed(s.book, uuid, reference, parent, amount, s.now);
      Recorded(s, b, r, true)
    case SendManually(uuid) =>
      var (b, r) := WebhookMarked(s.book, uuid);
      s.(book := b, sent := if r.Ok? then MaybeWebhook(s.sent, r.value, true) else s.sent)
    case Reset => s.(book := s.book.(codes := map[]))
  }

  function SetPhase(s: Sys, i: nat, phase: Phase): (s': Sys)
    requires i < |s.timers|
    ensures |s'.timers| == |s.timers|
  {
    s.(timers := s.timers[i := s.timers[i].(phase := phase)])
  }

  /** The timer goroutine reads the code; it gives up on one that is gone or already terminal. */
  function Woken(s: Sys, i: nat): Sys
    requires i < |s.timers|
  {
    var uuid := s.timers[i].uuid;
    if uuid !in s.book.codes || IsTerminal(s.book.codes[uuid].status) then SetPhase(s, i, Over(true))
    else SetPhase(s, i, Deciding)
  }

  function Run(s: Sys, events: seq<Event>): Sys
    decreases |events|
  {
    if events == [] then s else Run(Fire(s, events[0]), events[1..])
  }

  // ----------------------------------------------------------------- invariants

  ghost predicate Ended(s: Sys, uuid: string, status: Status) {
    exists k :: 0 <= k < |s.endings| && s.endings[k].uuid == uuid && s.endings[k].status == status
  }

  /** Every UUID ends at most once, and a stored code is terminal exactly when it has ended, with that status. */
  ghost predicate EndsOnce(s: Sys) {
    && (forall i, j :: 0 <= i < j < |s.endings| ==> s.endings[i].uuid != s.endings[j].uuid)
    && (forall i :: 0 <= i < |s.endings| ==> s.endings[i].uuid in s.used && IsTerminal(s.endings[i].status))
    && (forall uuid :: uuid in s.book.codes ==> uuid in s.used && s.book.codes[uuid].uuid == uuid)
    && (forall uuid :: uuid in s.book.codes && IsTerminal(s.book.codes[uuid].status) ==>
          Ended(s, uuid, s.book.codes[uuid].status))
    && (forall i :: 0 <= i < |s.endings| && s.endings[i].uuid in s.book.codes ==>
          s.book.codes[s.endings[i].uuid].status == s.endings[i].status)
  }

  function Automatic(sent: seq<Webhook>): seq<Webhook> {
    if sent == [] then []
    else Automatic(sent[..|sent| - 1]) + (if sent[|sent| - 1].manual then [] else [sent[|sent| - 1]])
  }

  function Unconfirmed(endings: seq<Ending>): seq<Ending> {
    if endings == [] then []
    else
      var last := endings[|endings| - 1];
      Unconfirmed(endings[..|endings| - 1]) + (if last.confirmed then [] else [last])
  }

  ghost predicate Announces(w: Webhook, e: Ending) {
    w.code.uuid == e.uuid && w.code.status == e.status
  }

  /** The automatic webhooks are, one for one, the endings other than confirmed refunds; no webhook lies. */
  ghost predicate Announced(s: Sys) {
    && |Automatic(s.sent)| == |Unconfirmed(s.endings)|
    && (forall k :: 0 <= k < |Automatic(s.sent)| ==> Announces(Automatic(s.sent)[k], Unconfirmed(s.endings)[k]))
    && (forall k :: 0 <= k < |s.sent| ==> Ended(s, s.sent[k].code.uuid, s.sent[k].code.status))
  }

  /** Transaction ids only grow, under a clock that does not go back; a successful code has one of them. */
  ghost predicate Issues(s: Sys) {
    && (forall i, j :: 0 <= i < j < |s.issued| ==> s.issued[i].trnID < s.issued[j].trnID)
    && (forall i :: 0 <= i < |s.issued| ==> s.issued[i].trnID <= s.now + s.book.trnCounter)
    && (forall uuid :: uuid in s.book.codes && s.book.codes[uuid].status == Success ==>
          Issue(uuid, s.book.codes[uuid].trnID) in s.issued)
  }

  /** A timer that came to its end by the clock leaves no live code behind. */
  ghost predicate Expires(s: Sys) {
    forall i :: 0 <= i < |s.timers| ==>
      && s.timers[i].uuid in s.used
      && (s.timers[i].phase == Over(true) && s.timers[i].uuid in s.book.codes ==>
            IsTerminal(s.book.codes[s.timers[i].uuid].status))
  }

  ghost predicate Inv(s: Sys) {
    EndsOnce(s) && Announced(s) && Issues(s) && Expires(s)
  }

  lemma AutomaticAppend(sent: seq<Webhook>, w: Webhook)
    ensures Automatic(sent + [w]) == Automatic(sent) + (if w.manual then [] else [w])
  {
    assert (sent + [w])[..|sent|] == sent;
  }

  lemma UnconfirmedAppend(endings: seq<Ending>, e: Ending)
    ensures Unconfirmed(endings + [e]) == Unconfirmed(endings) + (if e.confirmed then [] else [e])
  {
    assert (endings + [e])[..|endings|] == endings;
  }

  /** A successful status change: the code was live, and only it and the counter have changed. */
  ghost predicate Moves(s: Sys, b: Book, c: Code) {
    && c.uuid in s.book.codes && !IsTerminal(s.book.codes[c.uuid].status)
    && b.codes == s.book.codes[c.uuid := c]
    && (if c.status == Success then b.trnCounter == s.book.trnCounter + 1 && c.trnID == NewTrnID(s.book, s.now)
        else b.trnCounter == s.book.trnCounter)
  }

  lemma MoveKeepsEndings(s: Sys, b: Book, c: Code, confirmed: bool)
    requires EndsOnce(s) && Moves(s, b, c)
    ensures EndsOnce(Recorded(s, b, Ok(c), confirmed))
  {
    var s' := Recorded(s, b, Ok(c), confirmed);
    var n := |s.endings|;
    forall uuid | uuid in b.codes && IsTerminal(b.codes[uuid].status) ensures Ended(s', uuid, b.codes[uuid].status) {
      if uuid == c.uuid {
        assert s'.endings[n].uuid == uuid;
      } else {
        var k :| 0 <= k < n && s.endings[k].uuid == uuid && s.endings[k].status == s.book.codes[uuid].status;
        assert s'.endings[k] == s.endings[k];
      }
    }
  }

  lemma MoveKeepsAnnounced(s: Sys, b: Book, c: Code, confirmed: bool)
    requires Announced(s)
    ensures Announced(Recorded(s, b, Ok(c), confirmed))
  {
    if IsTerminal(c.status) {
      var s' := Recorded(s, b, Ok(c), confirmed);
      var e := Ending(c.uuid, c.status, confirmed);
      UnconfirmedAppend(s.endings, e);
      AutomaticAppend(s.sent, Webhook(c, false));
      assert s'.endings[|s.endings|] == e;
      forall k | 0 <= k < |s'.sent| ensures Ended(s', s'.sent[k].code.uuid, s'.sent[k].code.status) {
        if k < |s.sent| { EndedStays(s, s', s.sent[k].code.uuid, s.sent[k].code.status); }
      }
    }
  }

  lemma EndedStays(s: Sys, s': Sys, uuid: string, status: Status)
    requires Ended(s, uuid, status) && s.endings <= s'.endings
    ensures Ended(s', uuid, status)
  {
    var k :| 0 <= k < |s.endings| && s.endings[k].uuid == uuid && s.endings[k].status == status;
    assert s'.endings[k] == s.endings[k];
  }

  lemma MoveKeepsIssues(s: Sys, b: Book, c: Code, confirmed: bool)
    requires Issues(s) && Moves(s, b, c)
    ensures Issues(Recorded(s, b, Ok(c), confirmed))
  {
    var s' := Recorded(s, b, Ok(c), confirmed);
    assert c.status == Success ==> s'.issued[|s.issued|] == Issue(c.uuid, c.trnID);
  }

  lemma MoveKeepsExpires(s: Sys, b: Book, c: Code, confirmed: bool)
    requires Expires(s) && Moves(s, b, c)
    ensures Expires(Recorded(s, b, Ok(c), confirmed))
  {
  }

  lemma MoveKeepsInv(s: Sys, b: Book, c: Code, confirmed: bool)
    requires Inv(s) && Moves(s, b, c)
    ensures Inv(Recorded(s, b, Ok(c), confirmed))
  {
    hide EndsOnce, Announced, Issues, Expires, Moves, Recorded;
    MoveKeepsEndings(s, b, c, confirmed);
    MoveKeepsAnnounced(s, b, c, confirmed);
    MoveKeepsIssues(s, b, c, confirmed);
    MoveKeepsExpires(s, b, c, confirmed);
  }

  lemma InvEndsOnce(s: Sys)
    requires Inv(s)
    ensures EndsOnce(s)
  {
  }

  /** A refused change leaves the book as it was. */
  lemma RefusedChangesNothing(s: Sys, uuid: string, status: Status)
    requires StatusUpdated(s.book, uuid, status, s.now).1.Err?
    ensures Changed(s, uuid, status) == s
  {
  }

  lemma ChangeKeepsInv(s: Sys, uuid: string, status: Status)
    requires Inv(s)
    ensures Inv(Changed(s, uuid, status))
  {
    InvEndsOnce(s);
    hide Inv, EndsOnce;
    var (b, r) := StatusUpdated(s.book, uuid, status, s.now);
    if r.Ok? {
      UpdateMoves(s, uuid, status);
      hide StatusUpdated, Moves, Recorded;
      MoveKeepsInv(s, b, r.value, false);
    } else {
      RefusedChangesNothing(s, uuid, status);
    }
  }

  lemma UpdateMoves(s: Sys, uuid: string, status: Status)
    requires EndsOnce(s) && StatusUpdated(s.book, uuid, status, s.now).1.Ok?
    ensures Moves(s, StatusUpdated(s.book, uuid, status, s.now).0, StatusUpdated(s.book, uuid, status, s.now).1.value)
  {
  }

  lemma ExpiredIsTerminal(s: Sys, uuid: string)
    ensures uuid in Changed(s, uuid, Expired).book.codes ==>
              IsTerminal(Changed(s, uuid, Expired).book.codes[uuid].status)
  {
  }

  lemma ConfirmMoves(s: Sys, uuid: string, reference: string, parent: string, amount: real)
    requires EndsOnce(s) && RefundConfirmed(s.book, uuid, reference, parent, amount, s.now).1.Ok?
    ensures var (b, r) := RefundConfirmed(s.book, uuid, reference, parent, amount, s.now); Moves(s, b, r.value)
  {
  }

  lemma RefusedConfirmsNothing(s: Sys, uuid: string, reference: string, parent: string, amount: real)
    requires RefundConfirmed(s.book, uuid, reference, parent, amount, s.now).1.Err?
    ensures Fire(s, Confirm(uuid, reference, parent, amount)) == s
  {
  }

  lemma ConfirmIsRecorded(s: Sys, uuid: string, reference: string, parent: string, amount: real)
    ensures var (b, r) := RefundConfirmed(s.book, uuid, reference, parent, amount, s.now);
            Fire(s, Confirm(uuid, reference, parent, amount)) == Recorded(s, b, r, true)
  {
    hide RefundConfirmed, Recorded;
  }

  lemma ConfirmKeepsInv(s: Sys, uuid: string, reference: string, parent: string, amount: real)
    requires Inv(s)
    ensures Inv(Fire(s, Confirm(uuid, reference, parent, amount)))
  {
    InvEndsOnce(s);
    ConfirmIsRecorded(s, uuid, reference, parent, amount);
    hide Inv, EndsOnce, Fire, RefundConfirmed, Moves, Recorded;
    var (b, r) := RefundConfirmed(s.book, uuid, reference, parent, amount, s.now);
    if r.Ok? {
      ConfirmMoves(s, uuid, reference, parent, amount);
      MoveKeepsInv(s, b, r.value, true);
    } else {
      RefusedConfirmsNothing(s, uuid, reference, parent, amount);
    }
  }

  lemma ManualKeepsInv(s: Sys, uuid: string)
    requires Inv(s)
    ensures Inv(Fire(s, SendManually(uuid)))
  {
    ManualKeepsEndings(s, uuid);
    ManualKeepsAnnounced(s, uuid);
    ManualKeepsRest(s, uuid);
    hide EndsOnce, Announced, Issues, Expires, Fire;
  }

  lemma ManualKeepsRest(s: Sys, uuid: string)
    requires Issues(s) && Expires(s)
    ensures Issues(Fire(s, SendManually(uuid))) && Expires(Fire(s, SendManually(uuid)))
  {
  }

  lemma ManualKeepsAnnounced(s: Sys, uuid: string)
    requires EndsOnce(s) && Announced(s)
    ensures Announced(Fire(s, SendManually(uuid)))
  {
    hide Announced;
    var s' := Fire(s, SendManually(uuid));
    var (b, r) := WebhookMarked(s.book, uuid);
    if r.Ok? {
      assert Ended(s, uuid, r.value.status);
      hide Ended, EndsOnce;
      SentKeepsAnnounced(s, s', Webhook(r.value, true));
    } else {
      SameAnnounced(s, s');
    }
  }

  lemma SentKeepsAnnounced(s: Sys, s': Sys, w: Webhook)
    requires Announced(s) && w.manual && Ended(s, w.code.uuid, w.code.status)
    requires s'.endings == s.endings && s'.sent == s.sent + [w]
    ensures Announced(s')
  {
    AutomaticAppend(s.sent, w);
    hide Automatic, Unconfirmed, Announces;
    assert forall uuid, status :: Ended(s, uuid, status) ==> Ended(s', uuid, status);
    hide Ended;
  }

  lemma SameAnnounced(s: Sys, s': Sys)
    requires Announced(s) && s'.endings == s.endings && s'.sent == s.sent
    ensures Announced(s')
  {
    assert forall uuid, status :: Ended(s, uuid, status) ==> Ended(s', uuid, status);
    hide Ended;
  }

  lemma ManualKeepsEndings(s: Sys, uuid: string)
    requires EndsOnce(s)
    ensures EndsOnce(Fire(s, SendManually(uuid)))
  {
    var s' := Fire(s, SendManually(uuid));
    forall u | u in s'.book.codes && IsTerminal(s'.book.codes[u].status) ensures Ended(s', u, s'.book.codes[u].status) {
      EndedStays(s, s', u, s.book.codes[u].status);
    }
  }

  /** Steps that leave the records of the run alone, and every code that had ended as it was or gone. */
  lemma {:induction false} QuietKeepsInv(s: Sys, s': Sys)
    requires Inv(s) && Expires(s')
    requires s'.endings == s.endings && s'.sent == s.sent && s'.issued == s.issued
    requires s.now <= s'.now && s'.book.trnCounter == s.book.trnCounter && s.used <= s'.used
    requires forall u :: u in s'.book.codes ==>
               if u in s.book.codes then s'.book.codes[u] == s.book.codes[u]
               else u in s'.used && u !in s.used && s'.book.codes[u].uuid == u && s'.book.codes[u].status == New
    ensures Inv(s')
  {
    assert EndsOnce(s') by {
      forall u | u in s'.book.codes && IsTerminal(s'.book.codes[u].status)
        ensures Ended(s', u, s'.book.codes[u].status)
      {
        EndedStays(s, s', u, s.book.codes[u].status);
      }
    }
    forall k | 0 <= k < |s.sent| ensures Ended(s', s.sent[k].code.uuid, s.sent[k].code.status) {
      EndedStays(s, s', s.sent[k].code.uuid, s.sent[k].code.status);
    }
  }

  lemma FireKeepsInv(s: Sys, e: Event)
    requires Inv(s)
    ensures Inv(Fire(s, e))
  {
    hide Inv;
    match e
    case Change(uuid, status) =>
      ChangeKeepsInv(s, uuid, status);
      hide Changed;
    case Confirm(uuid, reference, parent, amount) => ConfirmKeepsInv(s, uuid, reference, parent, amount);
    case SendManually(uuid) => ManualKeepsInv(s, uuid);
    case TimerExpires(i) => ExpireKeepsInv(s, i);
    case _ => QuietFireKeepsInv(s, e);
  }

  /** Steps that end no code and send nothing. */
  predicate Quiet(e: Event) {
    e.Generate? || e.Tick? || e.ContextStarts? || e.TimerStarts? || e.TimerFires? || e.ContextEnds? || e.Reset?
  }

  lemma QuietFireKeepsInv(s: Sys, e: Event)
    requires Inv(s) && Quiet(e)
    ensures Inv(Fire(s, e))
  {
    QuietKeepsExpires(s, e);
    hide EndsOnce, Announced, Issues, Expires;
    QuietKeepsInv(s, Fire(s, e));
  }

  lemma QuietKeepsExpires(s: Sys, e: Event)
    requires Inv(s) && Quiet(e)
    ensures Expires(Fire(s, e))
  {
    hide EndsOnce;
    hide Announced;
    hide Issues;
  }

  lemma ExpireKeepsInv(s: Sys, i: nat)
    requires Inv(s)
    ensures Inv(Fire(s, TimerExpires(i)))
  {
    if i < |s.timers| && s.timers[i].phase.Deciding? {
      var uuid := s.timers[i].uuid;
      ChangeKeepsInv(s, uuid, Expired);
      ExpiredIsTerminal(s, uuid);
      var s1 := Changed(s, uuid, Expired);
      hide Changed;
      QuietKeepsInv(s1, SetPhase(s1, i, Over(true)));
    }
  }

  lemma {:induction false} RunKeepsInv(s: Sys, events: seq<Event>)
    requires Inv(s)
    ensures Inv(Run(s, events)) && s.endings <= Run(s, events).endings
    decreases |events|
  {
    if events != [] {
      FireKeepsInv(s, events[0]);
      EndingsGrow(s, events[0]);
      hide Fire;
      hide Inv;
      RunKeepsInv(Fire(s, events[0]), events[1..]);
    }
  }

  lemma EndingsGrow(s: Sys, e: Event)
    ensures s.endings <= Fire(s, e).endings
  {
  }

  // --------------------------------------------------------------- main results

  /** A code becomes terminal at most once and stays so, with the same status, as long as it is stored. */
  lemma {:induction false} TerminalIsForever(now: int, before: seq<Event>, after: seq<Event>, uuid: string)
    requires var s := Run(Start(now), before); uuid in s.book.codes && IsTerminal(s.book.codes[uuid].status)
    ensures var s, s' := Run(Start(now), before), Run(Run(Start(now), before), after);
            && (uuid in s'.book.codes ==> s'.book.codes[uuid].status == s.book.codes[uuid].status)
            && (forall i, j :: 0 <= i < |s'.endings| && 0 <= j < |s'.endings| ==>
                  s'.endings[i].uuid == s'.endings[j].uuid ==> i == j)
  {
    hide Run;
    RunKeepsInv(Start(now), before);
    var s := Run(Start(now), before);
    RunKeepsInv(s, after);
    EndedStays(s, Run(s, after), uuid, s.book.codes[uuid].status);
  }

  /**
   * Automatic webhooks match, one for one and in order, the endings that no refund confirmation made. So a
   * code gets at most one, none when its refund was confirmed; and any webhook carries the final status.
   */
  lemma {:induction false} OneWebhookWithTheFinalStatus(now: int, events: seq<Event>)
    ensures var s := Run(Start(now), events);
            && |Automatic(s.sent)| == |Unconfirmed(s.endings)|
            && (forall k :: 0 <= k < |Automatic(s.sent)| ==> Announces(Automatic(s.sent)[k], Unconfirmed(s.endings)[k]))
            && (forall i, j :: 0 <= i < j < |Automatic(s.sent)| ==>
                  Automatic(s.sent)[i].code.uuid != Automatic(s.sent)[j].code.uuid)
            && (forall k :: 0 <= k < |s.sent| && s.sent[k].code.uuid in s.book.codes ==>
                  s.sent[k].code.status == s.book.codes[s.sent[k].code.uuid].status)
  {
    hide Run;
    RunKeepsInv(Start(now), events);
    var s := Run(Start(now), events);
    assert Distinct(s.endings);
    UnconfirmedDistinct(s.endings);
    forall i, j | 0 <= i < j < |Automatic(s.sent)|
      ensures Automatic(s.sent)[i].code.uuid != Automatic(s.sent)[j].code.uuid
    {
      assert Announces(Automatic(s.sent)[i], Unconfirmed(s.endings)[i]);
      assert Announces(Automatic(s.sent)[j], Unconfirmed(s.endings)[j]);
    }
  }

  predicate Distinct(endings: seq<Ending>) {
    forall i, j :: 0 <= i < j < |endings| ==> endings[i].uuid != endings[j].uuid
  }

  lemma {:induction false} DistinctAppend(us: seq<Ending>, last: Ending)
    requires Distinct(us) && forall e :: e in us ==> e.uuid != last.uuid
    ensures Distinct(us + [last])
  {
    forall i | 0 <= i < |us| ensures us[i].uuid != last.uuid {
      assert us[i] in us;
    }
  }

  lemma {:induction false} UnconfirmedDistinct(endings: seq<Ending>)
    requires Distinct(endings)
    ensures forall e :: e in Unconfirmed(endings) ==> e in endings
    ensures Distinct(Unconfirmed(endings))
  {
    if endings != [] {
      var front, last := endings[..|endings| - 1], endings[|endings| - 1];
      assert forall i :: 0 <= i < |front| ==> front[i] == endings[i];
      UnconfirmedDistinct(front);
      forall e | e in front ensures e.uuid != last.uuid && e in endings {
        var i :| 0 <= i < |front| && front[i] == e;
        assert endings[i] == e;
      }
      DistinctAppend(Unconfirmed(front), last);
    }
  }

  predicate Succeeded(s: Sys, uuid: string) {
    uuid in s.book.codes && s.book.codes[uuid].status == Success
  }

  /** Under a clock that does not go back, no transaction id is issued twice. */
  lemma {:induction false} TransactionIDsAreDistinct(now: int, events: seq<Event>)
    ensures var s := Run(Start(now), events);
            && (forall i, j :: 0 <= i < |s.issued| && 0 <= j < |s.issued| && i != j ==>
                  s.issued[i].trnID != s.issued[j].trnID)
            && (forall u, v :: Succeeded(s, u) && Succeeded(s, v) && u != v ==>
                  s.book.codes[u].trnID != s.book.codes[v].trnID)
  {
    hide Run;
    RunKeepsInv(Start(now), events);
    var s := Run(Start(now), events);
    forall u, v | Succeeded(s, u) && Succeeded(s, v) && u != v ensures s.book.codes[u].trnID != s.book.codes[v].trnID {
      var i :| 0 <= i < |s.issued| && s.issued[i] == Issue(u, s.book.codes[u].trnID);
      var j :| 0 <= j < |s.issued| && s.issued[j] == Issue(v, s.book.codes[v].trnID);
      assert i != j;
    }
  }

  predicate LiveCode(s: Sys, uuid: string) {
    uuid in s.book.codes && !IsTerminal(s.book.codes[uuid].status)
  }

  /** Goroutine `i` is over, and its code is still stored and still live. */
  predicate Abandoned(s: Sys, i: nat) {
    i < |s.timers| && s.timers[i].phase.Over? && LiveCode(s, s.timers[i].uuid)
  }

  /** The code is live and its goroutine still sleeps though its context, made before its timer, is up. */
  predicate AtRisk(s: Sys, i: nat) {
    && i < |s.timers| && s.timers[i].phase.Sleeping? && LiveCode(s, s.timers[i].uuid)
    && s.timers[i].phase.context + TTL + GRACE <= s.now
  }

  lemma OnlyContextAbandons(s: Sys, e: Event, i: nat)
    requires Inv(s) && i < |s.timers| && !s.timers[i].phase.Over? && Abandoned(Fire(s, e), i)
    ensures e == ContextEnds(i) && AtRisk(s, i)
  {
    if e.TimerExpires? && e.i < |s.timers| && s.timers[e.i].phase.Deciding? {
      ExpiredIsTerminal(s, s.timers[e.i].uuid);
      hide Changed;
    }
  }

  /**
   * Does expiry leave the code terminal? In every reachable state some step ends a running goroutine with
   * its code live if and only if the code is live and the goroutine sleeps on when its context is up.
   */
  lemma {:induction false} ExpiryMayAbandon(now: int, events: seq<Event>, i: nat)
    requires i < |Run(Start(now), events).timers| && !Run(Start(now), events).timers[i].phase.Over?
    ensures var s := Run(Start(now), events); (exists e :: Abandoned(Fire(s, e), i)) <==> AtRisk(s, i)
  {
    hide Run;
    RunKeepsInv(Start(now), events);
    var s := Run(Start(now), events);
    forall e | Abandoned(Fire(s, e), i) ensures AtRisk(s, i) {
      OnlyContextAbandons(s, e, i);
    }
    if AtRisk(s, i) {
      assert Abandoned(Fire(s, ContextEnds(i)), i);
    }
  }

  lemma {:induction false} RunLast(s: Sys, events: seq<Event>, e: Event)
    ensures Run(s, events + [e]) == Fire(Run(s, events), e)
    decreases |events|
  {
    hide Fire;
    if events == [] {
      assert [] + [e] == [e] && [e][1..] == [];
    } else {
      assert (events + [e])[1..] == events[1..] + [e];
      RunLast(Fire(s, events[0]), events[1..], e);
    }
  }

  /** Goroutine `i` never takes the branch of its context while its code is live. */
  ghost predicate InTime(now: int, events: seq<Event>, i: nat) {
    forall k :: 0 <= k < |events| && events[k] == ContextEnds(i) ==> !AtRisk(Run(Start(now), events[..k]), i)
  }

  lemma InTimeBefore(now: int, events: seq<Event>, e: Event, i: nat)
    requires InTime(now, events + [e], i)
    ensures InTime(now, events, i)
    ensures e == ContextEnds(i) ==> !AtRisk(Run(Start(now), events), i)
  {
    hide Run;
    hide AtRisk;
    var all := events + [e];
    assert all[..|events|] == events && all[|events|] == e;
    forall k | 0 <= k < |events| && events[k] == ContextEnds(i) ensures !AtRisk(Run(Start(now), events[..k]), i) {
      assert all[k] == events[k] && all[..k] == events[..k];
    }
  }

  /** A goroutine that was over stays over, and its code, if stored, was stored and as terminal before. */
  lemma StaysEnded(s: Sys, e: Event, i: nat)
    requires Inv(s) && i < |s.timers| && s.timers[i].phase.Over? && Abandoned(Fire(s, e), i)
    ensures Abandoned(s, i)
  {
    var uuid, s' := s.timers[i].uuid, Fire(s, e);
    FireKeepsInv(s, e);
    EndingsGrow(s, e);
    TimersStay(s, e, i);
    if uuid in s.book.codes && IsTerminal(s.book.codes[uuid].status) {
      EndedStays(s, s', uuid, s.book.codes[uuid].status);
    }
  }

  lemma TimersStay(s: Sys, e: Event, i: nat)
    requires EndsOnce(s) && i < |s.timers| && s.timers[i].uuid in s.used
    ensures i < |Fire(s, e).timers| && Fire(s, e).timers[i].uuid == s.timers[i].uuid
    ensures s.timers[i].uuid in Fire(s, e).book.codes ==> s.timers[i].uuid in s.book.codes
  {
  }

  /**
   * Over every run: a goroutine that is over leaves no live code behind, unless it took the branch of its
   * context at a moment when it was at risk.
   */
  lemma {:induction false} ExpiryEndsTheCode(now: int, events: seq<Event>, i: nat)
    requires InTime(now, events, i)
    ensures !Abandoned(Run(Start(now), events), i)
    decreases |events|
  {
    if events != [] {
      var front, e := events[..|events| - 1], events[|events| - 1];
      var s := Run(Start(now), front);
      assert events == front + [e];
      InTimeBefore(now, front, e, i);
      ExpiryEndsTheCode(now, front, i);
      RunLast(Start(now), front, e);
      RunKeepsInv(Start(now), front);
      hide Run, Fire, Inv, Abandoned, AtRisk, InTime;
      if Abandoned(Fire(s, e), i) {
        StepEndsTheCode(s, e, i);
      }
    }
  }

  lemma StepEndsTheCode(s: Sys, e: Event, i: nat)
    requires Inv(s) && Abandoned(Fire(s, e), i)
    ensures Abandoned(s, i) || (e == ContextEnds(i) && AtRisk(s, i))
  {
    hide Inv;
    if i < |s.timers| {
      if s.timers[i].phase.Over? { StaysEnded(s, e, i); } else { OnlyContextAbandons(s, e, i); }
    }
  }

  /**
   * A goroutine paused between making its context and its timer, and then asleep: it can be lost exactly
   * when the two add up to the context's life of 301 seconds. Its timer wakes it after 300 seconds of sleep, so a
   * wake-up as early as that does not save it.
   */
  lemma PauseAndSleep(now: int, uuid: string, amount: real, pause: nat, sleep: nat)
    ensures var s := Run(Start(now), Paused(uuid, amount, pause, sleep));
            && s.timers == [Timer(uuid, Sleeping(now, now + pause))] && s.now == now + pause + sleep
            && (Abandoned(Fire(s, ContextEnds(0)), 0) <==> pause + sleep >= 301_000)
            && (Fire(s, TimerFires(0)) != s <==> sleep >= 300_000)
  {
    var e1, e2, e3, e4, e5 := Generate(uuid, false, amount), ContextStarts(0), Tick(pause), TimerStarts(0), Tick(sleep);
    var s2 := Fire(Fire(Start(now), e1), e2);
    PausedStart(now, uuid, amount);
    var s5 := Fire(Fire(Fire(s2, e3), e4), e5);
    PausedSleep(s2, uuid, pause, sleep);
    RunFive(Start(now), e1, e2, e3, e4, e5);
  }

  function Paused(uuid: string, amount: real, pause: nat, sleep: nat): seq<Event> {
    [Generate(uuid, false, amount), ContextStarts(0), Tick(pause), TimerStarts(0), Tick(sleep)]
  }

  lemma PausedStart(now: int, uuid: string, amount: real)
    ensures var s := Fire(Fire(Start(now), Generate(uuid, false, amount)), ContextStarts(0));
            s.timers == [Timer(uuid, Timing(now))] && s.now == now && LiveCode(s, uuid)
  {
  }

  lemma PausedSleep(s: Sys, uuid: string, pause: nat, sleep: nat)
    requires s.timers == [Timer(uuid, Timing(s.now))] && LiveCode(s, uuid)
    ensures var s' := Fire(Fire(Fire(s, Tick(pause)), TimerStarts(0)), Tick(sleep));
            && s'.timers == [Timer(uuid, Sleeping(s.now, s.now + pause))] && s'.now == s.now + pause + sleep
            && (Abandoned(Fire(s', ContextEnds(0)), 0) <==> pause + sleep >= 301_000)
            && (Fire(s', TimerFires(0)) != s' <==> sleep >= 300_000)
  {
    var s1 := Fire(Fire(s, Tick(pause)), TimerStarts(0));
    assert s1.timers == [Timer(uuid, Sleeping(s.now, s.now + pause))];
    assert s1.book == s.book;
  }

  lemma RunFive(s: Sys, e1: Event, e2: Event, e3: Event, e4: Event, e5: Event)
    ensures Run(s, [e1, e2, e3, e4, e5]) == Fire(Fire(Fire(Fire(Fire(s, e1), e2), e3), e4), e5)
  {
    hide Fire;
    assert Run(s, []) == s;
    RunLast(s, [], e1);
    RunLast(s, [e1], e2);
    RunLast(s, [e1, e2], e3);
    RunLast(s, [e1, e2, e3], e4);
    RunLast(s, [e1, e2, e3, e4], e5);
    hide Run;
    assert [] + [e1] == [e1] && [e1] + [e2] == [e1, e2] && [e1, e2] + [e3] == [e1, e2, e3];
    assert [e1, e2, e3] + [e4] == [e1, e2, e3, e4] && [e1, e2, e3, e4] + [e5] == [e1, e2, e3, e4, e5];
  }
}
