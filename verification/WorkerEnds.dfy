/**
 * What becomes of a delivery: how its dispatch and the settle after it change the transports and
 * the record of its copy, outcome by outcome, from every reachable state.
 */
module WorkerEnds {
  import opened Common
  import opened Envelopes
  import opened InMemory
  import opened Pipeline
  import opened WorkerRuns
  import opened WorkerHistory

  predicate Takes(mail: World, alias: string) { alias in mail && !mail[alias].closing }

  /** The delivery is rejected: the error was not a handler's, or its message cannot be sent on. */
  predicate Rejects(policy: Policy, mail: World, e: Envelope, outcome: Outcome, wait: real) {
    match outcome
    case Handled => false
    case Infrastructure => true
    case Failed(_, _) =>
      if FailsEarly(policy, e, outcome) then wait < 0.0 || !Takes(mail, OriginOf(Inner(policy, e)))
      else !Accepts(policy, mail)
  }

  /** The message is out of retries, and no failure transport is configured. */
  predicate GivesUp(policy: Policy, e: Envelope, outcome: Outcome) {
    outcome.Failed? && !FailsEarly(policy, e, outcome) && policy.failure.None?
  }

  /** Where a failed message is sent on to. */
  function TargetOf(policy: Policy, e: Envelope, outcome: Outcome): string {
    if FailsEarly(policy, e, outcome) then OriginOf(Inner(policy, e))
    else match policy.failure case None => "" case Some(alias) => alias
  }

  function FateOf(policy: Policy, mail: World, e: Envelope, outcome: Outcome, wait: real): Fate {
    if outcome.Handled? then Done
    else if Rejects(policy, mail, e, outcome, wait) then Kept
    else if GivesUp(policy, e, outcome) then Discarded
    else Moved(TargetOf(policy, e, outcome))
  }

  function Called(mail: World, alias: string, call: Call, now: real): World
    requires alias in mail
  {
    mail[alias := Apply(mail[alias], call, now)]
  }

  /** The transports once the delivery is over: one reject, or one ack, behind one send if it moved. */
  function MailOnceOver(policy: Policy, mail: World, key: Key, e: Envelope, outcome: Outcome, wait: real, now: real)
    : World
    requires key.0 in mail
  {
    if Rejects(policy, mail, e, outcome, wait) then Called(mail, key.0, RejectCall(e, key.1), now)
    else if outcome.Handled? || GivesUp(policy, e, outcome) then Called(mail, key.0, AckCall(key.1), now)
    else
      var to := TargetOf(policy, e, outcome);
      if to !in mail || !outcome.Failed? then mail
      else Called(Called(mail, to, SendCall(MovedEnvelope(policy, e, outcome, wait)), now), key.0, AckCall(key.1), now)
  }

  // ---- One dispatch ------------------------------------------------------------------

  lemma DispatchEnds(policy: Policy, mail: World, e: Envelope, outcome: Outcome, wait: real, now: real)
    requires Inner(policy, e).Last(ReceivedStamp).Some?
    ensures Dispatch(policy, mail, e, outcome, wait, now).1 == FateOf(policy, mail, e, outcome, wait)
    ensures var f := FateOf(policy, mail, e, outcome, wait);
      Dispatch(policy, mail, e, outcome, wait, now).0 ==
        if f.Moved? && f.alias in mail && outcome.Failed?
        then Called(mail, f.alias, SendCall(MovedEnvelope(policy, e, outcome, wait)), now) else mail
    ensures FateOf(policy, mail, e, outcome, wait).Moved? ==>
      outcome.Failed? && Takes(mail, TargetOf(policy, e, outcome))
  {
    hide Inner, Retried, DeadLettered, Sent, LastOf;
  }

  /** What ending a dispatch changes. */
  lemma FinishEnds(policy: Policy, s: State, key: Key, outcome: Outcome, wait: real)
    requires Fitting(s.mail, s.jobs) && CanFinish(s, key)
    ensures var t := Finished(policy, s, key, outcome, wait);
      var e, c := s.jobs[key].envelope, s.log.home[key];
      var f := FateOf(policy, s.mail, e, outcome, wait);
      && t.clock == s.clock && t.jobs == s.jobs[key := Job(e, Some(f))]
      && t.mail ==
           (if f.Moved? && f.alias in s.mail && outcome.Failed?
            then Called(s.mail, f.alias, SendCall(MovedEnvelope(policy, e, outcome, wait)), s.clock) else s.mail)
      && t.log.handled == (if outcome.Handled? then s.log.handled + {c} else s.log.handled)
      && t.log.dropped == (if f.Discarded? then s.log.dropped + {c} else s.log.dropped)
      && t.log.tally ==
           s.log.tally[c := Counted(s.log.tally[c], FailsEarly(policy, e, outcome), outcome.Failed?, f.Kept?)]
      && (outcome.Handled? ==> t.log == s.log.(handled := s.log.handled + {c}, tally := t.log.tally))
  {
    assert JobFits(s.mail, key, s.jobs[key]);
    InnerIsReceived(policy, s.mail[key.0], s.mail[key.0].inFlight[key.1]);
    DispatchEnds(policy, s.mail, s.jobs[key].envelope, outcome, wait, s.clock);
    hide Dispatch, Delivered, Inner, LastOf, Counted, MovedEnvelope, FailsEarly, OriginOf, Rejects, GivesUp, TargetOf;
    hide Called;
  }

  /** What the settle of a delivery whose dispatch is over changes. */
  lemma SettleEnds(s: State, key: Key)
    requires Fitting(s.mail, s.jobs) && key in s.log.home && key in s.jobs && s.jobs[key].fate.Some?
    ensures key.0 in s.mail
    ensures var t := WorkerSettled(s, key);
      var call := if s.jobs[key].fate == Some(Kept) then RejectCall(s.jobs[key].envelope, key.1) else AckCall(key.1);
      && t.clock == s.clock && t.jobs == s.jobs - {key} && t.mail == Called(s.mail, key.0, call, s.clock)
      && t.log.handled == s.log.handled && t.log.dropped == s.log.dropped && t.log.tally == s.log.tally
      && (call.AckCall? ==> t.log == s.log)
  {
    assert JobFits(s.mail, key, s.jobs[key]);
    DeliveredId(s.mail[key.0], s.mail[key.0].inFlight[key.1]);
    hide Delivered, Acked, Rejected;
  }

  /** A failure counts as one failure of its copy, any other error as one throw, and no other copy counts. */
  ghost predicate CountsOutcome(before: map<nat, Tally>, after: map<nat, Tally>, c: nat, outcome: Outcome) {
    && before.Keys == after.Keys && c in before && (forall d :: d in before && d != c ==> after[d] == before[d])
    && Failures(after[c]) == Failures(before[c]) + (if outcome.Failed? then 1 else 0)
    && after[c].thrown == before[c].thrown + (if outcome.Infrastructure? then 1 else 0)
  }

  lemma FailureCounts(policy: Policy, s: State, key: Key, outcome: Outcome, wait: real)
    requires CanFinish(s, key)
    ensures var e, c := s.jobs[key].envelope, s.log.home[key];
      var kept := FateOf(policy, s.mail, e, outcome, wait).Kept?;
      CountsOutcome(
        s.log.tally,
        s.log.tally[c := Counted(s.log.tally[c], FailsEarly(policy, e, outcome), outcome.Failed?, kept)], c, outcome)
  {
    hide Inner, OriginOf, GivesUp, TargetOf, Accepts;
  }

  // ---- The main statements -----------------------------------------------------------

  /**
   * From every reachable state, a delivery that ends changes the transports by one ack, one reject,
   * or one send and one ack, and which, is decided by its outcome, the budget and who accepts: only
   * a handled message is put down as handled, and only one without any further home as dropped.
   */
  lemma DeliveryEnds(policy: Policy, s: State, key: Key, outcome: Outcome, wait: real)
    requires Conserved(s) && CanFinish(s, key)
    ensures key.0 in s.mail
    ensures var u := Step(policy, Step(policy, s, Finish(key, outcome, wait)), Settle(key));
      var e, c := s.jobs[key].envelope, s.log.home[key];
      && u.jobs == s.jobs - {key} && u.clock == s.clock
      && u.mail == MailOnceOver(policy, s.mail, key, e, outcome, wait, s.clock)
      && c !in s.log.handled + s.log.dropped
      && u.log.handled == (if outcome.Handled? then s.log.handled + {c} else s.log.handled)
      && u.log.dropped == (if GivesUp(policy, e, outcome) then s.log.dropped + {c} else s.log.dropped)
      && CountsOutcome(s.log.tally, u.log.tally, c, outcome)
  {
    hide *;
    FailureCounts(policy, s, key, outcome, wait);
    StepConserves(policy, s, Finish(key, outcome, wait));
    ConservedFacts(s);
    ConservedFacts(Step(policy, s, Finish(key, outcome, wait)));
    StepIs(policy, s, key, outcome, wait);
    FinishEnds(policy, s, key, outcome, wait);
    UnfinishedIsOpen(s, key);
    MailComposes(policy, s, key, outcome, wait);
    SettleEnds(Finished(policy, s, key, outcome, wait), key);
  }

  lemma ConservedFacts(s: State)
    requires Conserved(s)
    ensures Sound(s.mail) && Fitting(s.mail, s.jobs) && forall k :: k in s.jobs ==> k in s.log.home
  {
    hide Sound, Fitting, Staffed, Placed, Live;
  }

  lemma StepIs(policy: Policy, s: State, key: Key, outcome: Outcome, wait: real)
    ensures Step(policy, s, Finish(key, outcome, wait)) == Finished(policy, s, key, outcome, wait)
    ensures forall t :: Step(policy, t, Settle(key)) == WorkerSettled(t, key)
    ensures CanFinish(s, key) ==> key in s.jobs && key in s.log.home
  {
    hide Finished, WorkerSettled;
  }

  /** The settle comes on top of what the dispatch did. */
  lemma MailComposes(policy: Policy, s: State, key: Key, outcome: Outcome, wait: real)
    requires Fitting(s.mail, s.jobs) && CanFinish(s, key)
    ensures var e := s.jobs[key].envelope;
      var f := FateOf(policy, s.mail, e, outcome, wait);
      var mid := if f.Moved? && f.alias in s.mail && outcome.Failed?
                 then Called(s.mail, f.alias, SendCall(MovedEnvelope(policy, e, outcome, wait)), s.clock) else s.mail;
      var call := if f == Kept then RejectCall(e, key.1) else AckCall(key.1);
      && key.0 in mid && key.0 in s.mail
      && MailOnceOver(policy, s.mail, key, e, outcome, wait, s.clock) == Called(mid, key.0, call, s.clock)
      && (f.Discarded? <==> GivesUp(policy, e, outcome))
  {
    assert JobFits(s.mail, key, s.jobs[key]);
    DispatchEndsSomewhere(policy, s, key, outcome, wait);
    hide Fitting, Delivered, Rejects, GivesUp, TargetOf, MovedEnvelope, Apply;
  }

  lemma DispatchEndsSomewhere(policy: Policy, s: State, key: Key, outcome: Outcome, wait: real)
    requires Fitting(s.mail, s.jobs) && CanFinish(s, key)
    ensures var e := s.jobs[key].envelope;
      && (FateOf(policy, s.mail, e, outcome, wait).Moved? ==>
           outcome.Failed? && Takes(s.mail, TargetOf(policy, e, outcome)))
      && !(Rejects(policy, s.mail, e, outcome, wait) && GivesUp(policy, e, outcome))
      && (outcome.Handled? ==> !Rejects(policy, s.mail, e, outcome, wait) && !GivesUp(policy, e, outcome))
  {
    hide Inner, OriginOf, FailsEarly;
  }

  lemma UnfinishedIsOpen(s: State, key: Key)
    requires Conserved(s) && CanFinish(s, key)
    ensures s.log.home[key] !in s.log.handled + s.log.dropped
  {
    assert key in Live(s.mail, s.jobs);
    hide Sound, Fitting, Staffed, Recorded, Live;
    assert Carries(BookOf(Live(s.mail, s.jobs), s.log), key, {});
  }

  /** No handled message is put down as failed or thrown, and its entry is live no more. */
  lemma HandledEnds(policy: Policy, s: State, key: Key, wait: real)
    requires Conserved(s) && CanFinish(s, key)
    ensures key.0 in s.mail
    ensures var t := Step(policy, s, Finish(key, Handled, wait));
      var u := Step(policy, t, Settle(key));
      && t.mail == s.mail && u.mail == Called(s.mail, key.0, AckCall(key.1), s.clock)
      && u.log == s.log.(handled := s.log.handled + {s.log.home[key]})
      && key in Live(s.mail, s.jobs) && Live(u.mail, u.jobs) == Live(s.mail, s.jobs) - iset{key}
  {
    hide *;
    DeliveryEnds(policy, s, key, Handled, wait);
    StepConserves(policy, s, Finish(key, Handled, wait));
    ConservedFacts(s);
    ConservedFacts(Step(policy, s, Finish(key, Handled, wait)));
    StepIs(policy, s, key, Handled, wait);
    FinishEnds(policy, s, key, Handled, wait);
    HandledCounts(policy, s, key, wait);
    SettleEnds(Finished(policy, s, key, Handled, wait), key);
    FinishLives(policy, s, key, Handled, wait);
    SpentSettle(Finished(policy, s, key, Handled, wait), key);
  }

  lemma HandledCounts(policy: Policy, s: State, key: Key, wait: real)
    requires CanFinish(s, key)
    ensures FateOf(policy, s.mail, s.jobs[key].envelope, Handled, wait) == Done
    ensures var t := s.log.tally[s.log.home[key]];
      Counted(t, FailsEarly(policy, s.jobs[key].envelope, Handled), false, false) == t
      && s.log.tally[s.log.home[key] := t] == s.log.tally
    ensures key.0 in s.mail ==>
      MailOnceOver(policy, s.mail, key, s.jobs[key].envelope, Handled, wait, s.clock)
        == Called(s.mail, key.0, AckCall(key.1), s.clock)
  {
    hide Apply;
  }

  lemma SpentSettle(s: State, key: Key)
    requires Sound(s.mail) && Fitting(s.mail, s.jobs) && key in s.jobs && s.jobs[key].fate == Some(Done)
    ensures Live(WorkerSettled(s, key).mail, WorkerSettled(s, key).jobs) == Live(s.mail, s.jobs)
  {
    if WorkerSettled(s, key) != s {
      SettleLives(s, key);
    }
    hide Sound, Fitting, Live, WorkerSettled;
  }

  // ---- Which copies are ever ended ---------------------------------------------------

  /** This event ends a delivery of copy `c` with this outcome. */
  predicate Ends(s: State, ev: Event, c: nat) { ev.Finish? && CanFinish(s, ev.key) && s.log.home[ev.key] == c }

  /**
   * A copy is put down as handled exactly when a delivery of it ends handled, as dropped exactly
   * when one ends in a failure with no retry and no failure transport left, and both are for good.
   */
  lemma EndedIff(policy: Policy, s: State, ev: Event, c: nat)
    requires Conserved(s)
    ensures var t := Step(policy, s, ev);
      && (c in t.log.handled <==> c in s.log.handled || (Ends(s, ev, c) && ev.outcome.Handled?))
      && (c in t.log.dropped <==>
           c in s.log.dropped || (Ends(s, ev, c) && GivesUp(policy, s.jobs[ev.key].envelope, ev.outcome)))
      && (Ends(s, ev, c) ==> c !in s.log.handled + s.log.dropped)
  {
    hide *;
    EndsIs(s, ev, c);
    if ev.Finish? && CanFinish(s, ev.key) {
      DeliveryEnds(policy, s, ev.key, ev.outcome, ev.wait);
      StepIs(policy, s, ev.key, ev.outcome, ev.wait);
      FinishEnded(policy, s, ev.key, ev.outcome, ev.wait);
    } else {
      OthersEndNothing(policy, s, ev);
    }
  }

  lemma EndsIs(s: State, ev: Event, c: nat)
    ensures Ends(s, ev, c) <==> ev.Finish? && CanFinish(s, ev.key) && s.log.home[ev.key] == c
  {
  }

  lemma FinishEnded(policy: Policy, s: State, key: Key, outcome: Outcome, wait: real)
    requires Conserved(s) && CanFinish(s, key)
    ensures var t, c := Finished(policy, s, key, outcome, wait), s.log.home[key];
      && t.log.handled == (if outcome.Handled? then s.log.handled + {c} else s.log.handled)
      && t.log.dropped ==
           (if GivesUp(policy, s.jobs[key].envelope, outcome) then s.log.dropped + {c} else s.log.dropped)
  {
    hide *;
    ConservedFacts(s);
    StepIs(policy, s, key, outcome, wait);
    FinishEnds(policy, s, key, outcome, wait);
    MailComposes(policy, s, key, outcome, wait);
  }

  lemma OthersEndNothing(policy: Policy, s: State, ev: Event)
    requires !(ev.Finish? && CanFinish(s, ev.key))
    ensures Step(policy, s, ev).log.handled == s.log.handled && Step(policy, s, ev).log.dropped == s.log.dropped
  {
    hide Delivered, Acked, Rejected, Closed, Sent, Dispatch;
    if ev.Poll? { PollKeepsLog(s, ev.alias); hide Polled; }
  }

  /** Once handled, a copy stays handled and is never again in an entry, whatever happens. */
  lemma {:induction false} HandledForGood(policy: Policy, s: State, events: seq<Event>, c: nat)
    requires Conserved(s) && c in s.log.handled
    ensures var t := Run(policy, s, events);
      c in t.log.handled && forall k :: !Resides(t, c, k)
    decreases |events|
  {
    if events == [] {
      hide Sound, Fitting, Staffed, Recorded, Live;
      forall k ensures !Resides(s, c, k) {
        assert k in Live(s.mail, s.jobs) ==> Carries(BookOf(Live(s.mail, s.jobs), s.log), k, {});
      }
    } else {
      hide Conserved, Step, Resides, Live;
      StepConserves(policy, s, events[0]);
      EndedIff(policy, s, events[0], c);
      HandledForGood(policy, Step(policy, s, events[0]), events[1..], c);
    }
  }

  /** A finished delivery waits for its settle, whatever happens in between. */
  lemma {:induction false} FinishedWaits(policy: Policy, s: State, events: seq<Event>, key: Key)
    requires Conserved(s) && key in s.jobs && s.jobs[key].fate.Some? && Settle(key) !in events
    ensures var t := Run(policy, s, events); key in t.jobs && t.jobs[key] == s.jobs[key]
    decreases |events|
  {
    if events != [] {
      FinishedStays(policy, s, events[0], key);
      StepConserves(policy, s, events[0]);
      hide Conserved, Step;
      FinishedWaits(policy, Step(policy, s, events[0]), events[1..], key);
    }
  }

  lemma FinishedStays(policy: Policy, s: State, ev: Event, key: Key)
    requires Conserved(s) && key in s.jobs && s.jobs[key].fate.Some? && ev != Settle(key)
    ensures var t := Step(policy, s, ev); key in t.jobs && t.jobs[key] == s.jobs[key]
  {
    hide Sound, Fitting, Staffed, Placed, Live, Delivered, Acked, Rejected, Closed, Sent, Dispatch, Taken;
    if ev.Poll? {
      PollKeepsJobs(s, ev.alias);
      PollStarts(s, ev.alias, key);
      hide Polled;
    }
  }

  /**
   * A handled delivery is acked and nothing else: however much happens between the end of its
   * dispatch and its settle, the settle is one ack; and its copy never returns.
   */
  lemma HandledIsAcked(policy: Policy, s: State, key: Key, wait: real, between: seq<Event>, after: seq<Event>)
    requires Conserved(s) && CanFinish(s, key) && Settle(key) !in between
    ensures var c, t := s.log.home[key], Run(policy, Step(policy, s, Finish(key, Handled, wait)), between);
      var u := Step(policy, t, Settle(key));
      && key.0 in t.mail && u.mail == Called(t.mail, key.0, AckCall(key.1), t.clock)
      && u.jobs == t.jobs - {key} && u.log == t.log
      && c in Run(policy, u, after).log.handled && forall k :: !Resides(Run(policy, u, after), c, k)
  {
    hide *;
    var f := Step(policy, s, Finish(key, Handled, wait));
    var t := Run(policy, f, between);
    var u := Step(policy, t, Settle(key));
    HandledEnds(policy, s, key, wait);
    StepConserves(policy, s, Finish(key, Handled, wait));
    ConservedFacts(s);
    StepIs(policy, s, key, Handled, wait);
    FinishEnds(policy, s, key, Handled, wait);
    HandledCounts(policy, s, key, wait);
    FinishEnded(policy, s, key, Handled, wait);
    FinishedWaits(policy, f, between, key);
    RunConserves(policy, f, between);
    ConservedFacts(t);
    SettleEnds(t, key);
    HandledForGood(policy, f, between, s.log.home[key]);
    StepConserves(policy, t, Settle(key));
    HandledForGood(policy, u, after, s.log.home[key]);
  }

  // ---- What a failed message carries on ----------------------------------------------

  /**
   * A retry is due once its wait is over and counts one more; a dead letter is due at once and tells
   * the error of its handler and where its message was received. Each is one new entry, the last.
   */
  lemma FailureTells(policy: Policy, s: State, key: Key, outcome: Outcome, wait: real)
    requires Conserved(s) && CanFinish(s, key) && outcome.Failed?
    requires !Rejects(policy, s.mail, s.jobs[key].envelope, outcome, wait)
    requires !GivesUp(policy, s.jobs[key].envelope, outcome)
    ensures var e, to := s.jobs[key].envelope, TargetOf(policy, s.jobs[key].envelope, outcome);
      var t := Step(policy, s, Finish(key, outcome, wait));
      && to in s.mail && to in t.mail && |t.mail[to].queue| == |s.mail[to].queue| + 1
      && var sent := t.mail[to].queue[|s.mail[to].queue|];
         if FailsEarly(policy, e, outcome) then
           sent.availableAt == s.clock + wait && sent.envelope.RetryCount() == e.RetryCount() + 1
         else
           && sent.availableAt == s.clock && sent.envelope.RetryCount() == e.RetryCount()
           && sent.envelope.Last(ErrorDetailsStamp) == Some(NewErrorDetails(outcome.errorClass, outcome.errorText))
           && sent.envelope.Last(SentToFailureTransportStamp) == Some(NewSentToFailure(OriginOf(Inner(policy, e))))
  {
    hide *;
    ConservedFacts(s);
    StepIs(policy, s, key, outcome, wait);
    FinishEnds(policy, s, key, outcome, wait);
    DispatchEndsSomewhere(policy, s, key, outcome, wait);
    FailureMoves(policy, s.mail, s.jobs[key].envelope, outcome, wait);
    var e := s.jobs[key].envelope;
    SendAppends(s.mail, TargetOf(policy, e, outcome), MovedEnvelope(policy, e, outcome, wait), s.clock);
    MovedCarries(policy, s, key, outcome, wait);
  }

  lemma FailureMoves(policy: Policy, mail: World, e: Envelope, outcome: Outcome, wait: real)
    requires outcome.Failed? && !Rejects(policy, mail, e, outcome, wait) && !GivesUp(policy, e, outcome)
    ensures FateOf(policy, mail, e, outcome, wait) == Moved(TargetOf(policy, e, outcome))
    ensures Takes(mail, TargetOf(policy, e, outcome)) && TargetOf(policy, e, outcome) in mail
  {
    hide FailsEarly, OriginOf, Inner;
  }

  lemma SendAppends(mail: World, to: string, e: Envelope, now: real)
    requires Takes(mail, to) && to in mail
    ensures to in Called(mail, to, SendCall(e), now)
    ensures var q := Called(mail, to, SendCall(e), now)[to].queue;
      && |q| == |mail[to].queue| + 1
      && q[|mail[to].queue|].envelope == e && q[|mail[to].queue|].availableAt == now + e.DelayMs()
  {
    hide Envelope.DelayMs;
  }

  lemma MovedCarries(policy: Policy, s: State, key: Key, outcome: Outcome, wait: real)
    requires Fitting(s.mail, s.jobs) && key in s.jobs && outcome.Failed?
    ensures var e, moved := s.jobs[key].envelope, MovedEnvelope(policy, s.jobs[key].envelope, outcome, wait);
      if FailsEarly(policy, e, outcome) then moved.DelayMs() == wait && moved.RetryCount() == e.RetryCount() + 1
      else
        && moved.DelayMs() == 0.0 && moved.RetryCount() == e.RetryCount()
        && moved.Last(ErrorDetailsStamp) == Some(NewErrorDetails(outcome.errorClass, outcome.errorText))
        && moved.Last(SentToFailureTransportStamp) == Some(NewSentToFailure(OriginOf(Inner(policy, e))))
  {
    var e := s.jobs[key].envelope;
    var seen := Inner(policy, e);
    assert JobFits(s.mail, key, s.jobs[key]);
    RetryCountStays(policy, s.mail[key.0], s.mail[key.0].inFlight[key.1], e, outcome, "");
    RetryCountStays(policy, s.mail[key.0], s.mail[key.0].inFlight[key.1], seen, outcome, OriginOf(seen));
    RetryCountGrows(seen, wait);
    RetriedDelay(seen, wait);
    DeadLetterStamps(seen, outcome, OriginOf(seen));
    hide Fitting, JobFits, Delivered, Inner, OriginOf, Retried, DeadLettered, LastOf;
    hide Envelope.RetryCount, Envelope.DelayMs;
  }

  lemma RetriedDelay(e: Envelope, wait: real)
    ensures Retried(e, wait).DelayMs() == wait
  {
    hide LastOf, Drop, Envelope.RetryCount;
    var n := NewRedelivery(e.RetryCount() + 1);
    LastOfWith(e.With([n]), NewDelay(wait), DelayStamp);
    assert e.stamps + [n, NewDelay(wait)] == e.stamps + [n] + [NewDelay(wait)];
  }

  lemma DeadLetterStamps(e: Envelope, failed: Outcome, origin: string)
    requires failed.Failed?
    ensures var dead := DeadLettered(e, failed, origin);
      && dead.DelayMs() == 0.0
      && dead.Last(ErrorDetailsStamp) == Some(NewErrorDetails(failed.errorClass, failed.errorText))
      && dead.Last(SentToFailureTransportStamp) == Some(NewSentToFailure(origin))
  {
    hide LastOf, Drop;
    DeadLetteredStamps(e, failed, origin);
    var bare, details := e.WithoutAll(DelayStamp), NewErrorDetails(failed.errorClass, failed.errorText);
    LastOfWith(bare, details, ErrorDetailsStamp);
    LastOfWith(bare.With([details]), NewSentToFailure(origin), ErrorDetailsStamp);
    LastOfWith(bare.With([details]), NewSentToFailure(origin), SentToFailureTransportStamp);
  }
}
