/** Waiting for a sent transaction to be confirmed. The wait races three
    sources: a timer that rejects it, a signature subscription that the
    ledger notifies once, and (when asked for) status polls. Whichever
    settles the wait first decides it; later settlements change nothing.
    Timers and network answers are abstracted into a trace of events,
    delivered one at a time in the order they arrive. */
module Confirmation {
  import opened Base

  /** An error the ledger reports for a transaction; its content is not
      interpreted. */
  datatype TxError = TxError(code: nat)

  /** A signature status: the slot, the confirmation count (absent once
      the transaction is rooted) and the error, if any. */
  datatype Status = Status(slot: nat, confirmations: Option<nat>, err: Option<TxError>)

  datatype Rejection =
    | TimedOut
    /** The subscription reported an error; the rejection carries the
        whole status built from the notification. */
    | SubscriptionFailed(status: Status)
    /** A poll reported an error; the rejection carries the error alone. */
    | PollFailed(err: TxError)

  /** The state of the wait's promise. */
  datatype Settlement = Pending | Resolved(status: Status) | Rejected(reason: Rejection)

  datatype Event =
    | TimerFired
    /** The subscription callback, with the result's error and the
        context's slot. */
    | SignatureNotified(err: Option<TxError>, slot: nat)
    /** A status query came back: `None` when the ledger knows nothing of
        the transaction yet. */
    | PollAnswered(answer: Option<Status>)
    /** A status query threw; the exception is swallowed. */
    | PollThrew

  /** How the wait was set up: whether subscribing succeeded, and whether
      the caller asked for polling. */
  datatype Setup = Setup(subscribed: bool, queryStatus: bool)

  /** The wait's own variables: the `done` flag and the promise. */
  datatype Waiter = Waiter(done: bool, outcome: Settlement)

  /** A promise settles once; settling it again is ignored. */
  function Settle(o: Settlement, s: Settlement): (r: Settlement)
    ensures o.Pending? ==> r == s
    ensures !o.Pending? ==> r == o
  {
    if o.Pending? then s else o
  }

  /** When subscribing throws, `done` is set at once and no callback is
      registered. */
  function Start(setup: Setup): (w: Waiter)
    ensures w.outcome.Pending? && (w.done <==> !setup.subscribed)
  {
    Waiter(!setup.subscribed, Pending)
  }

  /** What a poll answer makes of a waiter that is still waiting: an error
      fails the wait, a nonzero confirmation count confirms it, anything
      else (no answer, no count, a zero count) keeps polling. */
  function PollVerdict(answer: Option<Status>): (r: Settlement)
    ensures r.Rejected? <==> answer.Some? && answer.value.err.Some?
    ensures r.Rejected? ==> r.reason == PollFailed(answer.value.err.value)
    ensures r.Resolved? <==> answer.Some? && answer.value.err.None?
                             && answer.value.confirmations.Some? && answer.value.confirmations.value != 0
    ensures r.Resolved? ==> r.status == answer.value
  {
    match answer
    case None => Pending
    case Some(s) =>
      if s.err.Some? then Rejected(PollFailed(s.err.value))
      else if s.confirmations.None? || s.confirmations.value == 0 then Pending
      else Resolved(s)
  }

  /** One event. The timer and the polls look at `done` first; the
      subscription callback does not, and relies on the promise ignoring
      a second settlement. */
  function Step(setup: Setup, w: Waiter, e: Event): (r: Waiter)
    ensures !w.outcome.Pending? ==> r.outcome == w.outcome
    ensures w.done && !e.SignatureNotified? ==> r == w
    ensures w.done ==> r.done
    ensures r.outcome != w.outcome ==> r.done
  {
    match e
    case TimerFired =>
      if w.done then w else Waiter(true, Settle(w.outcome, Rejected(TimedOut)))
    case SignatureNotified(err, slot) =>
      if !setup.subscribed then w
      else
        var status := Status(slot, Some(0), err);
        Waiter(true, Settle(w.outcome, if err.Some? then Rejected(SubscriptionFailed(status)) else Resolved(status)))
    case PollAnswered(answer) =>
      if !setup.queryStatus || w.done then w
      else
        var verdict := PollVerdict(answer);
        if verdict.Pending? then w else Waiter(true, Settle(w.outcome, verdict))
    case PollThrew => w
  }

  /** The waiter after a trace of events. */
  function Replay(setup: Setup, events: seq<Event>): Waiter {
    if events == [] then Start(setup)
    else Step(setup, Replay(setup, events[..|events| - 1]), events[|events| - 1])
  }

  lemma ReplayAppend(setup: Setup, events: seq<Event>, e: Event)
    ensures Replay(setup, events + [e]) == Step(setup, Replay(setup, events), e)
  {
    assert (events + [e])[..|events|] == events;
  }

  /** `awaitTransactionSignatureConfirmation`, run over a trace: the
      callbacks are handled one by one as they arrive. `Pending` means the
      call has not returned by the end of the trace; `Resolved` is the
      status it returns; `Rejected` is what it throws. */
  method AwaitTransactionSignatureConfirmation(setup: Setup, events: seq<Event>)
    returns (outcome: Settlement)
    ensures outcome == Replay(setup, events).outcome
  {
    var done := !setup.subscribed;
    outcome := Pending;
    var i := 0;
    while i < |events|
      invariant i <= |events|
      invariant Waiter(done, outcome) == Replay(setup, events[..i])
    {
      match events[i] {
        case TimerFired =>
          if !done {
            done := true;
            outcome := Settle(outcome, Rejected(TimedOut));
          }
        case SignatureNotified(err, slot) =>
          if setup.subscribed {
            done := true;
            var status := Status(slot, Some(0), err);
            if err.Some? {
              outcome := Settle(outcome, Rejected(SubscriptionFailed(status)));
            } else {
              outcome := Settle(outcome, Resolved(status));
            }
          }
        case PollAnswered(answer) =>
          if setup.queryStatus && !done && answer.Some? {
            var status := answer.value;
            if status.err.Some? {
              done := true;
              outcome := Settle(outcome, Rejected(PollFailed(status.err.value)));
            } else if status.confirmations.Some? && status.confirmations.value != 0 {
              done := true;
              outcome := Settle(outcome, Resolved(status));
            }
          }
        case PollThrew =>
      }
      ReplayAppend(setup, events[..i], events[i]);
      assert events[..i + 1] == events[..i] + [events[i]];
      i := i + 1;
    }
    assert events[..|events|] == events;
  }

  // Properties of the wait

  /** The first settlement wins: once settled, no later event changes the
      outcome. */
  lemma {:induction false} SettledIsFinal(setup: Setup, events: seq<Event>, later: seq<Event>)
    requires !Replay(setup, events).outcome.Pending?
    ensures Replay(setup, events + later).outcome == Replay(setup, events).outcome
  {
    if later != [] {
      var init := later[..|later| - 1];
      SettledIsFinal(setup, events, init);
      assert events + later == (events + init) + [later[|later| - 1]];
      ReplayAppend(setup, events + init, later[|later| - 1]);
    } else {
      assert events + later == events;
    }
  }

  /** With a working subscription, the wait is settled exactly when `done`
      is set. */
  lemma {:induction false} DoneIffSettled(setup: Setup, events: seq<Event>)
    requires setup.subscribed
    ensures Replay(setup, events).done <==> !Replay(setup, events).outcome.Pending?
  {
    if events != [] {
      var init := events[..|events| - 1];
      DoneIffSettled(setup, init);
    }
  }

  /** If subscribing threw, nothing can settle the wait: the timer and the
      polls see `done` and return, and there is no callback. */
  lemma {:induction false} FailedSubscriptionHangs(queryStatus: bool, events: seq<Event>)
    ensures Replay(Setup(false, queryStatus), events) == Waiter(true, Pending)
  {
    if events != [] {
      FailedSubscriptionHangs(queryStatus, events[..|events| - 1]);
    }
  }

  /** With a working subscription, the timer always ends the wait: when it
      fires, the wait is settled, by the timer itself if nothing came
      before it. */
  lemma TimerSettles(setup: Setup, before: seq<Event>, after: seq<Event>)
    requires setup.subscribed
    ensures !Replay(setup, before + [TimerFired] + after).outcome.Pending?
  {
    DoneIffSettled(setup, before);
    ReplayAppend(setup, before, TimerFired);
    SettledIsFinal(setup, before + [TimerFired], after);
  }

  /** The event that first settles the wait decides it, whatever follows. */
  lemma FirstSettlementDecides(setup: Setup, before: seq<Event>, e: Event, after: seq<Event>)
    requires Replay(setup, before).outcome.Pending?
    requires !Step(setup, Replay(setup, before), e).outcome.Pending?
    ensures Replay(setup, before + [e] + after).outcome == Step(setup, Replay(setup, before), e).outcome
  {
    ReplayAppend(setup, before, e);
    SettledIsFinal(setup, before + [e], after);
  }

  /** A subscription notification that arrives first settles the wait with
      a status of zero confirmations at the notified slot: rejected when
      the result carries an error, resolved otherwise. */
  lemma NotificationFirst(setup: Setup, err: Option<TxError>, slot: nat, after: seq<Event>)
    requires setup.subscribed
    ensures var status := Status(slot, Some(0), err);
      Replay(setup, [SignatureNotified(err, slot)] + after).outcome
        == if err.Some? then Rejected(SubscriptionFailed(status)) else Resolved(status)
  {
    FirstSettlementDecides(setup, [], SignatureNotified(err, slot), after);
    assert [] + [SignatureNotified(err, slot)] + after == [SignatureNotified(err, slot)] + after;
  }

  /** A poll answer, or a poll that threw. */
  predicate IsPoll(e: Event) {
    e.PollAnswered? || e.PollThrew?
  }

  /** Without polling, poll answers never matter: the outcome is that of
      the trace with them removed. */
  function WithoutPolls(events: seq<Event>): (r: seq<Event>)
    ensures forall i :: 0 <= i < |r| ==> !IsPoll(r[i])
  {
    if events == [] then []
    else
      var last := events[|events| - 1];
      WithoutPolls(events[..|events| - 1]) + (if IsPoll(last) then [] else [last])
  }

  lemma WithoutPollsSnoc(s: seq<Event>, e: Event)
    ensures WithoutPolls(s + [e]) == WithoutPolls(s) + (if IsPoll(e) then [] else [e])
  {
    assert (s + [e])[..|s|] == s;
  }

  lemma {:induction false} PollsIgnoredWithoutQuery(subscribed: bool, events: seq<Event>)
    ensures Replay(Setup(subscribed, false), events) == Replay(Setup(subscribed, false), WithoutPolls(events))
  {
    if events != [] {
      var setup := Setup(subscribed, false);
      var init, last := events[..|events| - 1], events[|events| - 1];
      PollsIgnoredWithoutQuery(subscribed, init);
      if !IsPoll(last) {
        ReplayAppend(setup, WithoutPolls(init), last);
      } else {
        assert WithoutPolls(events) == WithoutPolls(init) + [];
        assert WithoutPolls(init) + [] == WithoutPolls(init);
      }
    }
  }

  // Polling as written

  predicate PollSeen(events: seq<Event>) {
    exists i :: 0 <= i < |events| && IsPoll(events[i])
  }

  lemma PollSeenSnoc(s: seq<Event>, e: Event)
    ensures PollSeen(s + [e]) <==> PollSeen(s) || IsPoll(e)
  {
    if PollSeen(s) {
      var i :| 0 <= i < |s| && IsPoll(s[i]);
      assert (s + [e])[i] == s[i];
    }
    if IsPoll(e) {
      assert (s + [e])[|s|] == e;
    }
    if PollSeen(s + [e]) && !IsPoll(e) {
      var i :| 0 <= i < |s + [e]| && IsPoll((s + [e])[i]);
      assert i < |s| && s[i] == (s + [e])[i];
    }
  }

  /** Where the first poll event of a trace sits. */
  function FirstPollAt(events: seq<Event>): (k: nat)
    requires PollSeen(events)
    ensures k < |events| && IsPoll(events[k])
    ensures forall m :: 0 <= m < k ==> !IsPoll(events[m])
  {
    var init, last := events[..|events| - 1], events[|events| - 1];
    assert events == init + [last];
    PollSeenSnoc(init, last);
    if PollSeen(init) then FirstPollAt(init) else |events| - 1
  }

  /** As the code stands, the pause between polls calls a `sleep` that
      the constants module does not export, which throws once the first poll
      has been issued and ends the polling loop. Only the first poll
      answer can then arrive: later ones are never asked for. */
  function PollsAsWritten(events: seq<Event>): (r: seq<Event>)
    ensures |r| <= |events|
  {
    if events == [] then []
    else
      var init := PollsAsWritten(events[..|events| - 1]);
      var last := events[|events| - 1];
      if IsPoll(last) && PollSeen(events[..|events| - 1]) then init
      else init + [last]
  }

  /** As written, every event other than a poll reaches the wait, in
      order. */
  lemma {:induction false} PollsAsWrittenKeepsOthers(events: seq<Event>)
    ensures WithoutPolls(PollsAsWritten(events)) == WithoutPolls(events)
  {
    if events != [] {
      var init, last := events[..|events| - 1], events[|events| - 1];
      var ri := PollsAsWritten(init);
      PollsAsWrittenKeepsOthers(init);
      assert events == init + [last];
      WithoutPollsSnoc(init, last);
      if IsPoll(last) && PollSeen(init) {
        assert WithoutPolls(init) + [] == WithoutPolls(init);
      } else {
        WithoutPollsSnoc(ri, last);
      }
    }
  }

  /** As written, a poll reaches the wait exactly when the trace has one. */
  lemma {:induction false} PollsAsWrittenSeen(events: seq<Event>)
    ensures PollSeen(PollsAsWritten(events)) <==> PollSeen(events)
  {
    if events != [] {
      var init, last := events[..|events| - 1], events[|events| - 1];
      var ri := PollsAsWritten(init);
      PollsAsWrittenSeen(init);
      assert events == init + [last];
      PollSeenSnoc(init, last);
      if !(IsPoll(last) && PollSeen(init)) {
        PollSeenSnoc(ri, last);
      }
    }
  }

  /** As written, at most one poll reaches the wait. */
  lemma {:induction false} PollsAsWrittenOnePoll(events: seq<Event>)
    ensures forall i, j :: 0 <= i < j < |PollsAsWritten(events)| && IsPoll(PollsAsWritten(events)[i])
                           ==> !IsPoll(PollsAsWritten(events)[j])
  {
    if events != [] {
      var init, last := events[..|events| - 1], events[|events| - 1];
      var ri := PollsAsWritten(init);
      PollsAsWrittenOnePoll(init);
      if !(IsPoll(last) && PollSeen(init)) {
        var r := ri + [last];
        assert PollsAsWritten(events) == r;
        if IsPoll(last) {
          PollsAsWrittenSeen(init);
          assert forall i :: 0 <= i < |ri| ==> !IsPoll(ri[i]);
        }
        forall i, j | 0 <= i < j < |r| && IsPoll(r[i])
          ensures !IsPoll(r[j])
        {
          assert r[i] == ri[i];
          if j < |ri| {
            assert r[j] == ri[j];
          }
        }
      }
    }
  }

  /** As written, the poll that reaches the wait is the trace's first. */
  lemma {:induction false} PollsAsWrittenFirstPoll(events: seq<Event>)
    ensures forall i :: 0 <= i < |PollsAsWritten(events)| && IsPoll(PollsAsWritten(events)[i])
                       ==> PollSeen(events) && PollsAsWritten(events)[i] == events[FirstPollAt(events)]
  {
    if events != [] {
      var init, last := events[..|events| - 1], events[|events| - 1];
      var ri := PollsAsWritten(init);
      PollsAsWrittenFirstPoll(init);
      assert events == init + [last];
      PollSeenSnoc(init, last);
      var r := PollsAsWritten(events);
      forall i | 0 <= i < |r| && IsPoll(r[i])
        ensures PollSeen(events) && r[i] == events[FirstPollAt(events)]
      {
        if IsPoll(last) && PollSeen(init) {
          assert r == ri;
        } else {
          assert r == ri + [last];
        }
        var inInit := if IsPoll(last) && PollSeen(init) then true else i < |ri|;
        if inInit {
          // the poll came through from the prefix, whose first poll is the trace's
          assert r[i] == ri[i];
          assert FirstPollAt(events) == FirstPollAt(init);
          assert init[FirstPollAt(init)] == events[FirstPollAt(init)];
        } else {
          // the poll is the last event, and the prefix has none
          assert r[i] == last && IsPoll(last) && !PollSeen(init);
          assert FirstPollAt(events) == |events| - 1;
        }
      }
    }
  }

  /** The wait as the code runs it. */
  function ReplayAsWritten(setup: Setup, events: seq<Event>): Waiter {
    Replay(setup, PollsAsWritten(events))
  }

  /** As written, of two polls followed by another event, the second poll
      is dropped. */
  lemma SecondPollDropped(x: Event, y: Event, z: Event)
    requires IsPoll(x) && IsPoll(y) && !IsPoll(z)
    ensures PollsAsWritten([x, y, z]) == [x, z]
  {
    assert [x][..0] == [];
    assert PollsAsWritten([x]) == [x];
    assert PollSeen([x]) by {
      assert IsPoll([x][0]);
    }
    assert [x, y][..1] == [x];
    assert PollsAsWritten([x, y]) == [x];
    assert [x, y, z][..2] == [x, y];
  }

  /** A transaction that the first poll does not yet see, and that the
      second poll finds confirmed, is confirmed when polling continues; as
      written, the second poll never happens and the timer rejects the
      wait. */
  lemma SecondPollLost(status: Status)
    requires status.err.None? && status.confirmations == Some(1)
    ensures var setup := Setup(true, true);
      var events := [PollAnswered(None), PollAnswered(Some(status)), TimerFired];
      Replay(setup, events).outcome == Resolved(status)
      && ReplayAsWritten(setup, events).outcome == Rejected(TimedOut)
  {
    var setup := Setup(true, true);
    var a, b, c := PollAnswered(None), PollAnswered(Some(status)), TimerFired;
    // polling goes on
    ReplayAppend(setup, [], a);
    assert [] + [a] == [a];
    ReplayAppend(setup, [a], b);
    assert [a] + [b] == [a, b];
    ReplayAppend(setup, [a, b], c);
    assert [a, b] + [c] == [a, b, c];
    // as written
    SecondPollDropped(a, b, c);
    ReplayAppend(setup, [a], c);
    assert [a] + [c] == [a, c];
  }

  // Sending

  /** What `sendSignedTransaction` hands back. */
  datatype Sent = Sent(txid: string, slot: nat)

  /** `sendSignedTransaction`: the transaction is sent, then the wait runs
      with polling on. A rejected wait is caught; the slot is then 0. The
      result is `None` while the wait has not returned. */
  function SendSignedTransaction(txid: string, subscribed: bool, events: seq<Event>): (r: Option<Sent>)
    ensures var o := Replay(Setup(subscribed, true), events).outcome;
      (r.None? <==> o.Pending?)
      && (r.Some? ==> r.value.txid == txid)
      && (o.Resolved? ==> r == Some(Sent(txid, o.status.slot)))
      && (o.Rejected? ==> r == Some(Sent(txid, 0)))
  {
    match Replay(Setup(subscribed, true), events).outcome
    case Pending => None
    case Resolved(status) => Some(Sent(txid, status.slot))
    case Rejected(_) => Some(Sent(txid, 0))
  }

  /** Sending never fails: with a working subscription, once the timer has
      fired the call has returned the first send's signature. */
  lemma SendReturnsAfterTimer(txid: string, before: seq<Event>, after: seq<Event>)
    ensures SendSignedTransaction(txid, true, before + [TimerFired] + after).Some?
    ensures SendSignedTransaction(txid, true, before + [TimerFired] + after).value.txid == txid
  {
    TimerSettles(Setup(true, true), before, after);
  }
}
