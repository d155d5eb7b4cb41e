/** What a stored QR code and the endings of a run show of the events before them. */
module QrStory {
  import opened Text
  import opened QrLife

  ghost predicate MadeFor(events: seq<Event>, uuid: string, isRefund: bool) {
    exists amount :: Generate(uuid, isRefund, amount) in events
  }

  /** The code of a refund that was scanned and then confirmed with just what the code now holds. */
  ghost predicate Refunded(events: seq<Event>, c: Code) {
    && c.isRefund && MadeFor(events, c.uuid, true) && QrLife.Event.Change(c.uuid, Scanned) in events
    && Confirm(c.uuid, c.reference, c.parentTrnID, c.amount) in events && c.refunded == c.amount
  }

  /** Any other code is as it was made, but for a status that somebody or its timer gave it. */
  ghost predicate Plain(timers: seq<Timer>, events: seq<Event>, c: Code) {
    && Generate(c.uuid, c.isRefund, c.amount) in events && c.reference == "" && c.parentTrnID == "" && c.refunded == 0.0
    && (|| c.status == New || QrLife.Event.Change(c.uuid, c.status) in events
        || (c.status == Expired && TimedOut(timers, events, c.uuid)))
  }

  ghost predicate TimedOut(timers: seq<Timer>, events: seq<Event>, uuid: string) {
    exists i :: 0 <= i < |timers| && timers[i].uuid == uuid && TimerExpires(i) in events
  }

  ghost predicate Explained(timers: seq<Timer>, events: seq<Event>, c: Code) {
    (c.status == Success && Refunded(events, c)) || Plain(timers, events, c)
  }

  /** An ending by confirmation is that of a refund code that had been scanned. */
  ghost predicate Earned(events: seq<Event>, e: Ending) {
    e.confirmed ==>
      && e.status == Success && MadeFor(events, e.uuid, true) && QrLife.Event.Change(e.uuid, Scanned) in events
      && exists reference, parent, amount :: Confirm(e.uuid, reference, parent, amount) in events
  }

  ghost predicate CodesTold(s: Sys, events: seq<Event>) {
    forall uuid :: uuid in s.book.codes ==>
      s.book.codes[uuid].uuid == uuid && Explained(s.timers, events, s.book.codes[uuid])
  }

  ghost predicate EndingsTold(s: Sys, events: seq<Event>) {
    forall k :: 0 <= k < |s.endings| ==> Earned(events, s.endings[k])
  }

  // -------------------------------------------------------------- one event more

  ghost predicate Grows(timers: seq<Timer>, timers': seq<Timer>) {
    |timers| <= |timers'| && forall i :: 0 <= i < |timers| ==> timers'[i].uuid == timers[i].uuid
  }

  lemma {:induction false} ExplainedStays(timers: seq<Timer>, timers': seq<Timer>, events: seq<Event>, e: Event,
                                          c: Code)
    requires Explained(timers, events, c) && Grows(timers, timers')
    ensures Explained(timers', events + [e], c)
  {
    forall x | x in events ensures x in events + [e] {}
    if Refunded(events, c) {
      var amount :| Generate(c.uuid, true, amount) in events;
      assert Generate(c.uuid, true, amount) in events + [e];
    } else if TimedOut(timers, events, c.uuid) {
      var i :| 0 <= i < |timers| && timers[i].uuid == c.uuid && TimerExpires(i) in events;
      assert timers'[i].uuid == c.uuid && TimerExpires(i) in events + [e];
    }
  }

  lemma EarnedStays(events: seq<Event>, e: Event, ending: Ending)
    requires Earned(events, ending)
    ensures Earned(events + [e], ending)
  {
    if ending.confirmed {
      var amount :| Generate(ending.uuid, true, amount) in events;
      assert Generate(ending.uuid, true, amount) in events + [e];
      var reference, parent, given :| Confirm(ending.uuid, reference, parent, given) in events;
      assert Confirm(ending.uuid, reference, parent, given) in events + [e];
    }
  }

  /** A status change that goes through is explained by its event. */
  lemma ChangeExplains(timers: seq<Timer>, events: seq<Event>, e: Event, c: Code, status: Status, trnID: int)
    requires Explained(timers, events, c) && !IsTerminal(c.status)
    requires e == QrLife.Event.Change(c.uuid, status) || (status == Expired && TimedOut(timers, events + [e], c.uuid))
    ensures Explained(timers, events + [e], c.(status := status, trnID := trnID))
  {
    assert e in events + [e];
    forall x | x in events ensures x in events + [e] {}
  }

  lemma ConfirmationExplains(timers: seq<Timer>, events: seq<Event>, e: Event, c: Code, trnID: int)
    requires Explained(timers, events, c) && c.isRefund && c.status == Scanned
    requires e.Confirm? && e.uuid == c.uuid
    ensures Explained(timers, events + [e],
                      c.(status := Success, trnID := trnID, amount := e.amount, reference := e.reference,
                         parentTrnID := e.parent, refunded := e.amount))
    ensures Earned(events + [e], Ending(c.uuid, Success, true))
  {
    assert e in events + [e];
    assert Generate(c.uuid, true, c.amount) in events + [e];
    assert QrLife.Event.Change(c.uuid, Scanned) in events + [e];
    assert Confirm(c.uuid, e.reference, e.parent, e.amount) in events + [e];
  }

  lemma MarkExplains(timers: seq<Timer>, events: seq<Event>, c: Code, sent: bool)
    requires Explained(timers, events, c)
    ensures Explained(timers, events, c.(webhookSent := sent))
  {
  }

  lemma MadeExplains(timers: seq<Timer>, events: seq<Event>, e: Event)
    requires e.Generate?
    ensures Explained(timers, events + [e], Code(e.uuid, New, e.amount, e.isRefund, 0, false, "", "", 0.0))
  {
    assert e in events + [e];
  }

  lemma FireGrowsTimers(s: Sys, e: Event)
    ensures Grows(s.timers, Fire(s, e).timers)
  {
  }

  /** Every code but the one that the event writes is the same code as before. */
  lemma {:induction false} CodesStay(s: Sys, events: seq<Event>, e: Event, uuid: string)
    requires CodesTold(s, events) && uuid in s.book.codes
    ensures s.book.codes[uuid].uuid == uuid && Explained(Fire(s, e).timers, events + [e], s.book.codes[uuid])
  {
    FireGrowsTimers(s, e);
    hide Fire, Explained;
    ExplainedStays(s.timers, Fire(s, e).timers, events, e, s.book.codes[uuid]);
  }

  lemma {:induction false} FireTellsCodes(s: Sys, events: seq<Event>, e: Event)
    requires CodesTold(s, events)
    ensures CodesTold(Fire(s, e), events + [e])
  {
    var s' := Fire(s, e);
    forall uuid | uuid in s'.book.codes
      ensures s'.book.codes[uuid].uuid == uuid && Explained(s'.timers, events + [e], s'.book.codes[uuid])
    {
      FireTellsCode(s, events, e, uuid);
    }
  }

  lemma {:induction false} FireTellsCode(s: Sys, events: seq<Event>, e: Event, uuid: string)
    requires CodesTold(s, events) && uuid in Fire(s, e).book.codes
    ensures var c := Fire(s, e).book.codes[uuid]; c.uuid == uuid && Explained(Fire(s, e).timers, events + [e], c)
  {
    if uuid in s.book.codes { CodesStay(s, events, e, uuid); }
    match e
    case Generate(_, _, _) =>
      MadeExplains(Fire(s, e).timers, events, e);
      hide Explained;
    case Change(other, status) =>
      if other == uuid && !IsTerminal(s.book.codes[uuid].status) {
        ChangeExplains(s.timers, events, e, s.book.codes[uuid], status, Fire(s, e).book.codes[uuid].trnID);
      }
      hide Explained;
    case Confirm(other, _, _, _) =>
      var c := s.book.codes[uuid];
      if other == uuid && c.isRefund && c.status == Scanned {
        ConfirmationExplains(s.timers, events, e, c, Fire(s, e).book.codes[uuid].trnID);
      }
      hide Explained;
    case TimerExpires(i) => ExpiryTellsCode(s, events, e, uuid);
    case SendManually(_) =>
      MarkExplains(Fire(s, e).timers, events + [e], s.book.codes[uuid], true);
      hide Explained;
    case _ => hide Explained;
  }

  lemma {:induction false} ExpiryTellsCode(s: Sys, events: seq<Event>, e: Event, uuid: string)
    requires CodesTold(s, events) && e.TimerExpires? && uuid in s.book.codes
    ensures uuid in Fire(s, e).book.codes
    ensures var c := Fire(s, e).book.codes[uuid]; c.uuid == uuid && Explained(Fire(s, e).timers, events + [e], c)
  {
    CodesStay(s, events, e, uuid);
    var timers := Fire(s, e).timers;
    var c := s.book.codes[uuid];
    if e.i < |s.timers| && s.timers[e.i].phase.Deciding? && s.timers[e.i].uuid == uuid && !IsTerminal(c.status) {
      assert e in events + [e];
      assert timers[e.i].uuid == uuid;
      FireGrowsTimers(s, e);
      ExplainedOn(s.timers, timers, events, c);
      ChangeExplains(timers, events, e, c, Expired, c.trnID);
    }
    hide Explained;
  }

  lemma ExplainedOn(timers: seq<Timer>, timers': seq<Timer>, events: seq<Event>, c: Code)
    requires Explained(timers, events, c) && Grows(timers, timers')
    ensures Explained(timers', events, c)
  {
    if TimedOut(timers, events, c.uuid) {
      var i :| 0 <= i < |timers| && timers[i].uuid == c.uuid && TimerExpires(i) in events;
      assert timers'[i].uuid == c.uuid;
    }
  }

  lemma {:induction false} FireTellsEndings(s: Sys, events: seq<Event>, e: Event)
    requires CodesTold(s, events) && EndingsTold(s, events)
    ensures EndingsTold(Fire(s, e), events + [e])
  {
    var s' := Fire(s, e);
    if e.Confirm? && e.uuid in s.book.codes {
      var c := s.book.codes[e.uuid];
      if c.isRefund && c.status == Scanned { ConfirmationExplains(s.timers, events, e, c, 0); }
    }
    forall k | 0 <= k < |s.endings| ensures Earned(events + [e], s.endings[k]) {
      EarnedStays(events, e, s.endings[k]);
    }
    NewEnding(s, e);
    hide Explained, Earned, Fire;
  }

  /** At most one ending more, by confirmation only of a scanned refund code. */
  lemma {:induction false} NewEnding(s: Sys, e: Event)
    ensures var was, is_ := s.endings, Fire(s, e).endings;
            || is_ == was
            || (exists ending: Ending :: !ending.confirmed && is_ == was + [ending])
            || (&& e.Confirm? && e.uuid in s.book.codes && s.book.codes[e.uuid].isRefund
                && s.book.codes[e.uuid].status == Scanned
                && is_ == was + [Ending(s.book.codes[e.uuid].uuid, Success, true)])
  {
    var was, is_ := s.endings, Fire(s, e).endings;
    if is_ != was { assert is_ == was + [is_[|was|]]; }
  }

  lemma {:induction false} RunIsTold(now: int, events: seq<Event>)
    ensures CodesTold(Run(Start(now), events), events) && EndingsTold(Run(Start(now), events), events)
    decreases |events|
  {
    if events != [] {
      var front, e := events[..|events| - 1], events[|events| - 1];
      assert events == front + [e];
      RunIsTold(now, front);
      RunLast(Start(now), front, e);
      hide Run, Fire;
      FireTellsCodes(Run(Start(now), front), front, e);
      FireTellsEndings(Run(Start(now), front), front, e);
    }
  }

  // --------------------------------------------------------------- main results

  /**
   * Over every run: what was ended by a confirmation had been made for a refund and had been scanned. A stored
   * code holds a refunded sum only if a confirmation with that sum, reference and parent went through.
   */
  lemma {:induction false} RefundsAreEarned(now: int, events: seq<Event>, uuid: string)
    ensures var s := Run(Start(now), events);
            && (forall status :: Ending(uuid, status, true) in s.endings ==>
                  status == Success && MadeFor(events, uuid, true) && QrLife.Event.Change(uuid, Scanned) in events)
            && (uuid in s.book.codes ==>
                  var c := s.book.codes[uuid];
                  && MadeFor(events, uuid, c.isRefund)
                  && (c.refunded != 0.0 ==> c.status == Success && Refunded(events, c))
                  && (!Refunded(events, c) ==> Generate(uuid, c.isRefund, c.amount) in events))
  {
    RunIsTold(now, events);
    hide Run;
    var s := Run(Start(now), events);
    forall status | Ending(uuid, status, true) in s.endings
      ensures status == Success && MadeFor(events, uuid, true) && QrLife.Event.Change(uuid, Scanned) in events
    {
      var k :| 0 <= k < |s.endings| && s.endings[k] == Ending(uuid, status, true);
      assert Earned(events, s.endings[k]);
    }
  }

  /** When a confirmation goes through, and what the code then holds. */
  lemma ConfirmationTakesEffect(s: Sys, uuid: string, reference: string, parent: string, amount: real)
    requires EndsOnce(s)
    ensures var s' := Fire(s, Confirm(uuid, reference, parent, amount));
            if uuid in s.book.codes && s.book.codes[uuid].isRefund && s.book.codes[uuid].status == Scanned
            then
              && uuid in s'.book.codes && s'.endings == s.endings + [Ending(uuid, Success, true)] && s'.sent == s.sent
              && var c := s'.book.codes[uuid];
                 && c.status == Success && c.amount == c.refunded == amount
                 && c.reference == reference && c.parentTrnID == parent && c.trnID == s.now + s.book.trnCounter + 1
            else s' == s
  {
  }

  /** A manual webhook goes out for an ended code only, and marks it. */
  lemma MarkTakesEffect(s: Sys, uuid: string)
    ensures var s' := Fire(s, SendManually(uuid));
            if uuid in s.book.codes && Ends(s.book.codes[uuid].status)
            then
              && uuid in s'.book.codes && s'.book.codes[uuid] == s.book.codes[uuid].(webhookSent := true)
              && s'.sent == s.sent + [Webhook(s'.book.codes[uuid], true)] && s'.endings == s.endings
            else s' == s
  {
  }

  /** The statuses that end a code. */
  predicate Ends(status: Status) { status in {Success, Expired, Cancelled, Failed} }

  /**
   * In every reachable state a change of a stored code goes through unless one of the four endings came before.
   * If it is one of the four itself, the code keeps it as long as it is stored and one webhook carries it away.
   */
  lemma {:induction false} ChangeTakesEffect(now: int, before: seq<Event>, uuid: string, status: Status,
                                             after: seq<Event>)
    requires uuid in Run(Start(now), before).book.codes
    ensures var s := Run(Start(now), before);
            var s' := Fire(s, QrLife.Event.Change(uuid, status));
            if Ends(s.book.codes[uuid].status) then s' == s
            else
              && uuid in s'.book.codes && s'.book.codes[uuid].status == status
              && (status == Success ==> s'.book.codes[uuid].trnID == s.now + s.book.trnCounter + 1)
              && s'.sent == (if Ends(status) then s.sent + [Webhook(s'.book.codes[uuid], false)] else s.sent)
              && (Ends(status) && uuid in Run(s', after).book.codes ==>
                    Run(s', after).book.codes[uuid].status == status)
  {
    var s := Run(Start(now), before);
    var e := QrLife.Event.Change(uuid, status);
    RunKeepsInv(Start(now), before);
    RunLast(Start(now), before, e);
    ChangeEffect(s, uuid, status);
    hide Run, Fire, Inv;
    if !Ends(s.book.codes[uuid].status) && Ends(status) {
      TerminalIsForever(now, before + [e], after, uuid);
    }
  }

  lemma ChangeEffect(s: Sys, uuid: string, status: Status)
    requires Inv(s) && uuid in s.book.codes
    ensures var s' := Fire(s, QrLife.Event.Change(uuid, status));
            if Ends(s.book.codes[uuid].status) then s' == s
            else
              && uuid in s'.book.codes && s'.book.codes[uuid].status == status
              && (status == Success ==> s'.book.codes[uuid].trnID == s.now + s.book.trnCounter + 1)
              && s'.sent == (if Ends(status) then s.sent + [Webhook(s'.book.codes[uuid], false)] else s.sent)
  {
  }
}
