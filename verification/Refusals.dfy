/**
 * Where the bound on retries ends: a failure transport that is configured but does not accept
 * the message. The worker then rejects every delivery past the budget, and the same message
 * fails again any number of times.
 */
module Refusals {
  import opened Common
  import opened Envelopes
  import opened InMemory
  import opened Pipeline
  import opened WorkerRuns
  import opened WorkerHistory

  const BOOM := Failed("Error", "boom")

  /** Transport `a` holds one message, of copy `c`, ready to be taken, and nothing is being worked on. */
  ghost predicate Alone(s: State, a: string, c: nat) {
    && s.jobs == map[] && a in s.mail
    && var m := s.mail[a];
       && m.name == a && !m.closing && |m.queue| == 1 && m.inFlight == map[]
       && m.queue[0].id != Decimal(m.nextId) && m.queue[0].availableAt <= s.clock
       && !Has(m.queue[0].envelope, SentToFailureTransportStamp)
       && Carries(s.log, (a, m.queue[0].id), c)
  }

  predicate Carries(log: Ledger, key: Key, c: nat) {
    key in log.home && log.home[key] == c && c in log.tally
  }

  /** Transport `a` of `s`, its one message `x` delivered. */
  ghost predicate Taking(s: State, a: string, m: Mailbox, x: Entry) {
    && m.name == a && !m.closing && x.id != Decimal(m.nextId)
    && !Has(x.envelope, SentToFailureTransportStamp)
    && a in s.mail && s.mail[a] == m.(queue := [], inFlight := map[x.id := x])
  }

  lemma PollsAlone(s: State, a: string, c: nat)
    requires Alone(s, a, c)
    ensures var m := s.mail[a];
      var x := m.queue[0];
      && Polled(s, a) == s.(mail := s.mail[a := m.(queue := [], inFlight := map[x.id := x])],
                            jobs := map[(a, x.id) := Job(Delivered(m, x), None)])
      && Taking(Polled(s, a), a, m, x)
  {
    hide Delivered, Has, Decimal;
    assert FirstDue(s.mail[a].queue, s.clock) == Some(0);
    assert s.mail[a].queue[..0] + s.mail[a].queue[1..] == [];
  }

  /** Past the budget, with a failure transport that does not accept: kept. */
  lemma RefusesAlone(policy: Policy, s: State, a: string, m: Mailbox, x: Entry, c: nat, wait: real)
    requires Taking(s, a, m, x) && !Accepts(policy, s.mail) && !FailsEarly(policy, Delivered(m, x), BOOM)
    requires s.jobs == map[(a, x.id) := Job(Delivered(m, x), None)] && Carries(s.log, (a, x.id), c)
    ensures Finished(policy, s, (a, x.id), BOOM, wait)
         == s.(jobs := map[(a, x.id) := Job(Delivered(m, x), Some(Kept))],
               log := s.log.(tally := s.log.tally[c := s.log.tally[c].(refused := s.log.tally[c].refused + 1)]))
  {
    InnerIsReceived(policy, m, x);
    hide Delivered, Inner, LastOf, DeadLettered, Sent, Has;
    assert Dispatch(policy, s.mail, Delivered(m, x), BOOM, wait, s.clock) == (s.mail, Kept);
    hide Dispatch;
  }

  lemma OriginOfTaken(policy: Policy, m: Mailbox, x: Entry)
    requires !Has(x.envelope, SentToFailureTransportStamp)
    ensures OriginOf(Inner(policy, Delivered(m, x))) == m.name
  {
    LastIsMember(x.envelope.stamps, SentToFailureTransportStamp);
    OriginSeen(policy, m, x, m.name);
  }

  lemma DispatchRetries(policy: Policy, mail: World, m: Mailbox, x: Entry, wait: real, now: real)
    requires m.name in mail && !mail[m.name].closing && !Has(x.envelope, SentToFailureTransportStamp)
    requires FailsEarly(policy, Delivered(m, x), BOOM) && wait >= 0.0
    ensures var e := Retried(Inner(policy, Delivered(m, x)), wait);
      Dispatch(policy, mail, Delivered(m, x), BOOM, wait, now)
        == (mail[m.name := Sent(mail[m.name], e, now)], Moved(m.name))
  {
    InnerIsReceived(policy, m, x);
    OriginOfTaken(policy, m, x);
    hide Delivered, Inner, LastOf, Retried, Sent, Has;
  }

  /** Within the budget: sent back to where it came from. */
  lemma RetriesAlone(policy: Policy, s: State, a: string, m: Mailbox, x: Entry, c: nat, wait: real)
    requires Taking(s, a, m, x) && FailsEarly(policy, Delivered(m, x), BOOM) && wait >= 0.0
    requires s.jobs == map[(a, x.id) := Job(Delivered(m, x), None)] && Carries(s.log, (a, x.id), c)
    ensures var e := Retried(Inner(policy, Delivered(m, x)), wait);
      Finished(policy, s, (a, x.id), BOOM, wait)
         == s.(mail := s.mail[a := Sent(s.mail[a], e, s.clock)],
               jobs := map[(a, x.id) := Job(Delivered(m, x), Some(Moved(a)))],
               log := Put(s.log.(tally := s.log.tally[c := s.log.tally[c].(early := s.log.tally[c].early + 1)]),
                          (a, Decimal(m.nextId)), c))
  {
    DispatchRetries(policy, s.mail, m, x, wait, s.clock);
    hide Delivered, Inner, LastOf, Retried, Sent, Has, Decimal, Dispatch, FailsEarly, Envelope.Last;
    var job := Job(Delivered(m, x), Some(Moved(a)));
    assert s.jobs[(a, x.id) := job] == map[(a, x.id) := job];
  }

  /** Transport `a` afterwards: the message is queued again as `e`, under the next id. */
  ghost predicate Requeued(s: State, t: State, a: string, m: Mailbox, e: Envelope, at: real) {
    && a in s.mail && a in t.mail && t.mail == s.mail[a := t.mail[a]] && t.jobs == map[] && t.clock == s.clock
    && t.mail[a].name == a && !t.mail[a].closing && t.mail[a].inFlight == map[]
    && t.mail[a].nextId == m.nextId + 1 && t.mail[a].queue == [Entry(Decimal(m.nextId), e, at)]
  }

  lemma RejectsAlone(s: State, a: string, m: Mailbox, x: Entry)
    requires Taking(s, a, m, x)
    requires s.jobs == map[(a, x.id) := Job(Delivered(m, x), Some(Kept))] && (a, x.id) in s.log.home
    ensures var t := WorkerSettled(s, (a, x.id));
      && Requeued(s, t, a, m, Redelivery(Delivered(m, x)), s.clock)
      && t.log == Put(s.log, (a, Decimal(m.nextId)), s.log.home[(a, x.id)])
  {
    DeliveredId(m, x);
    hide Delivered, Redelivery, Decimal, Has;
  }

  lemma AcksAlone(before: State, s: State, a: string, m: Mailbox, x: Entry, e: Envelope)
    requires Taking(before, a, m, x)
    requires s.mail == before.mail[a := Sent(before.mail[a], e, before.clock)] && s.clock == before.clock
    requires s.jobs == map[(a, x.id) := Job(Delivered(m, x), Some(Moved(a)))] && (a, x.id) in s.log.home
    ensures var t := WorkerSettled(s, (a, x.id));
      Requeued(before, t, a, m, e, before.clock + e.DelayMs()) && t.log == s.log
  {
    DeliveredId(m, x);
    hide Delivered, Decimal, Has;
    var entry := Entry(Decimal(m.nextId), e, before.clock + e.DelayMs());
    assert [] + [entry] == [entry];
    assert Without([entry], x.id) == [entry];
  }

  /** A requeued message waits alone for its time. */
  lemma RequeuedIsAlone(s: State, t: State, a: string, m: Mailbox, e: Envelope, at: real, c: nat, wait: real)
    requires Requeued(s, t, a, m, e, at) && at <= t.clock + wait && wait >= 0.0
    requires !Has(e, SentToFailureTransportStamp) && Carries(t.log, (a, Decimal(m.nextId)), c)
    ensures Alone(t.(clock := t.clock + wait), a, c)
  {
    if Decimal(m.nextId) == Decimal(m.nextId + 1) {
      DecimalIsInjective(m.nextId, m.nextId + 1);
    }
    hide Decimal, Has;
  }

  // ---- One round ---------------------------------------------------------------------

  /** Taken, failed, settled, and waited for. */
  function AfterRound(policy: Policy, s: State, key: Key, wait: real): State {
    Step(policy, Step(policy, Step(policy, Step(policy, s, Poll(key.0)), Finish(key, BOOM, wait)), Settle(key)),
         Tick(wait))
  }

  lemma RoundIs(policy: Policy, s: State, key: Key, wait: real)
    requires wait >= 0.0
    ensures var t := WorkerSettled(Finished(policy, Polled(s, key.0), key, BOOM, wait), key);
      AfterRound(policy, s, key, wait) == t.(clock := t.clock + wait)
  {
    hide Polled, Finished, WorkerSettled, Deposited, Closed;
  }

  /** What one round does to the message in `s`: counted once more, and judged by its old count. */
  ghost predicate OneMoreRound(policy: Policy, s: State, t: State, a: string, c: nat)
    requires Alone(s, a, c)
  {
    var m := s.mail[a];
    var x := m.queue[0];
    && Alone(t, a, c) && !Accepts(policy, t.mail)
    && t.mail[a].queue[0].envelope.RetryCount() == x.envelope.RetryCount() + 1
    && t.log.tally[c].refused
         == s.log.tally[c].refused + if FailsEarly(policy, Delivered(m, x), BOOM) then 0 else 1
  }

  lemma StillRefuses(policy: Policy, s: State, t: State, a: string, m: Mailbox, e: Envelope, at: real)
    requires !Accepts(policy, s.mail) && a in s.mail && !s.mail[a].closing && Requeued(s, t, a, m, e, at)
    ensures !Accepts(policy, t.mail)
  {
  }

  /** The stamps of the next copy that the next round reads. */
  lemma RedeliveryStamps(m: Mailbox, x: Entry)
    requires !Has(x.envelope, SentToFailureTransportStamp)
    ensures !Has(Redelivery(Delivered(m, x)), SentToFailureTransportStamp)
    ensures Redelivery(Delivered(m, x)).RetryCount() == x.envelope.RetryCount() + 1
  {
    RetryCountGrows(Delivered(m, x), 0.0);
    DeliveryKeepsLast(m, x, RedeliveryStamp);
    DeliveryKeepsLast(m, x, SentToFailureTransportStamp);
    RedeliveryKeepsLast(Delivered(m, x), SentToFailureTransportStamp);
    hide LastOf, Delivered, Redelivery;
  }

  lemma RetriedStamps(policy: Policy, m: Mailbox, x: Entry, wait: real)
    requires !Has(x.envelope, SentToFailureTransportStamp)
    ensures var e := Retried(Inner(policy, Delivered(m, x)), wait);
      && !Has(e, SentToFailureTransportStamp) && e.DelayMs() == wait
      && e.RetryCount() == x.envelope.RetryCount() + 1
  {
    hide LastOf, Delivered, Inner;
    var seen := Inner(policy, Delivered(m, x));
    DeliveryKeepsLast(m, x, RedeliveryStamp);
    DeliveryKeepsLast(m, x, SentToFailureTransportStamp);
    InnerKeepsLast(policy, Delivered(m, x), RedeliveryStamp);
    InnerKeepsLast(policy, Delivered(m, x), SentToFailureTransportStamp);
    RetryCountGrows(seen, wait);
    var n := NewRedelivery(seen.RetryCount() + 1);
    LastOfWith(seen, n, SentToFailureTransportStamp);
    LastOfWith(seen.With([n]), NewDelay(wait), SentToFailureTransportStamp);
    LastOfWith(seen.With([n]), NewDelay(wait), DelayStamp);
    assert seen.stamps + [n, NewDelay(wait)] == seen.stamps + [n] + [NewDelay(wait)];
  }

  /** However the delivery was settled: the message queued again, one retry later. */
  lemma RoundEnds(policy: Policy, s: State, mid: State, t: State, a: string, e: Envelope, at: real, c: nat, wait: real)
    requires Alone(s, a, c) && !Accepts(policy, mid.mail) && a in mid.mail && !mid.mail[a].closing
    requires Requeued(mid, t, a, s.mail[a], e, at) && mid.clock == s.clock && at <= s.clock + wait && wait >= 0.0
    requires !Has(e, SentToFailureTransportStamp) && Carries(t.log, (a, Decimal(s.mail[a].nextId)), c)
    requires e.RetryCount() == s.mail[a].queue[0].envelope.RetryCount() + 1
    requires var early := FailsEarly(policy, Delivered(s.mail[a], s.mail[a].queue[0]), BOOM);
      t.log.tally[c].refused == s.log.tally[c].refused + if early then 0 else 1
    ensures OneMoreRound(policy, s, t.(clock := t.clock + wait), a, c)
  {
    var m := s.mail[a];
    hide Delivered, Accepts, Has, Decimal, FailsEarly, Carries, Envelope.RetryCount;
    RequeuedIsAlone(mid, t, a, m, e, at, c, wait);
    StillRefuses(policy, mid, t, a, m, e, at);
    hide Alone;
  }

  lemma RoundRefuses(policy: Policy, s: State, a: string, c: nat, wait: real)
    requires Alone(s, a, c) && !Accepts(policy, s.mail) && wait >= 0.0
    requires !FailsEarly(policy, Delivered(s.mail[a], s.mail[a].queue[0]), BOOM)
    ensures OneMoreRound(policy, s, AfterRound(policy, s, (a, s.mail[a].queue[0].id), wait), a, c)
  {
    var m := s.mail[a];
    var x := m.queue[0];
    var key, e := (a, x.id), Redelivery(Delivered(m, x));
    hide Delivered, Redelivery, Polled, Finished, WorkerSettled, AfterRound, Has, Decimal, FailsEarly,
         Envelope.RetryCount, OneMoreRound;
    PollsAlone(s, a, c);
    var polled := Polled(s, a);
    RefusesAlone(policy, polled, a, m, x, c, wait);
    var failed := Finished(policy, polled, key, BOOM, wait);
    RejectsAlone(failed, a, m, x);
    RedeliveryStamps(m, x);
    RoundEnds(policy, s, failed, WorkerSettled(failed, key), a, e, s.clock, c, wait);
    RoundIs(policy, s, key, wait);
  }

  lemma RetriesAndAcks(policy: Policy, s: State, a: string, m: Mailbox, x: Entry, c: nat, wait: real)
    requires Taking(s, a, m, x) && FailsEarly(policy, Delivered(m, x), BOOM) && wait >= 0.0
    requires s.jobs == map[(a, x.id) := Job(Delivered(m, x), None)] && Carries(s.log, (a, x.id), c)
    ensures var e := Retried(Inner(policy, Delivered(m, x)), wait);
      var t := WorkerSettled(Finished(policy, s, (a, x.id), BOOM, wait), (a, x.id));
      && Requeued(s, t, a, m, e, s.clock + e.DelayMs()) && Carries(t.log, (a, Decimal(m.nextId)), c)
      && t.log.tally[c].refused == s.log.tally[c].refused
  {
    var e := Retried(Inner(policy, Delivered(m, x)), wait);
    hide Delivered, Retried, Inner, Finished, WorkerSettled, Taking, Decimal, FailsEarly, Sent, LastOf, Requeued,
         Envelope.DelayMs;
    RetriesAlone(policy, s, a, m, x, c, wait);
    AcksAlone(s, Finished(policy, s, (a, x.id), BOOM, wait), a, m, x, e);
  }

  lemma RoundRetries(policy: Policy, s: State, a: string, c: nat, wait: real)
    requires Alone(s, a, c) && !Accepts(policy, s.mail) && wait >= 0.0
    requires FailsEarly(policy, Delivered(s.mail[a], s.mail[a].queue[0]), BOOM)
    ensures OneMoreRound(policy, s, AfterRound(policy, s, (a, s.mail[a].queue[0].id), wait), a, c)
  {
    var m := s.mail[a];
    var x := m.queue[0];
    var key, e := (a, x.id), Retried(Inner(policy, Delivered(m, x)), wait);
    hide Delivered, Retried, Inner, Polled, Finished, WorkerSettled, AfterRound, Has, Decimal, FailsEarly, Put,
         Envelope.RetryCount, Envelope.DelayMs, Sent, LastOf, Taking, Requeued, OneMoreRound;
    PollsAlone(s, a, c);
    var polled := Polled(s, a);
    RetriesAndAcks(policy, polled, a, m, x, c, wait);
    RetriedStamps(policy, m, x, wait);
    var settled := WorkerSettled(Finished(policy, polled, key, BOOM, wait), key);
    RoundEnds(policy, s, polled, settled, a, e, s.clock + wait, c, wait);
    RoundIs(policy, s, key, wait);
  }

  lemma RoundGoesOn(policy: Policy, s: State, a: string, c: nat, wait: real)
    requires Alone(s, a, c) && !Accepts(policy, s.mail) && wait >= 0.0
    ensures OneMoreRound(policy, s, AfterRound(policy, s, (a, s.mail[a].queue[0].id), wait), a, c)
  {
    hide OneMoreRound, AfterRound, FailsEarly, Accepts, Has, Delivered;
    if FailsEarly(policy, Delivered(s.mail[a], s.mail[a].queue[0]), BOOM) {
      RoundRetries(policy, s, a, c, wait);
    } else {
      RoundRefuses(policy, s, a, c, wait);
    }
  }

  // ---- Any number of rounds ----------------------------------------------------------

  /** How often the message that waits on `a` has been retried, and its entry's key. */
  function Count(s: State, a: string): nat {
    if a in s.mail && s.mail[a].queue != [] then s.mail[a].queue[0].envelope.RetryCount() else 0
  }

  function FirstKey(s: State, a: string): Key {
    (a, if a in s.mail && s.mail[a].queue != [] then s.mail[a].queue[0].id else "")
  }

  ghost predicate NonNegative(waits: nat -> real) { forall k: nat :: waits(k) >= 0.0 }

  /** The state after one more round; `waits(n)` is what the strategy answers at the `n`th retry. */
  function Next(policy: Policy, s: State, a: string, waits: nat -> real): State {
    AfterRound(policy, s, FirstKey(s, a), waits(Count(s, a)))
  }

  ghost function Rounds(policy: Policy, s: State, a: string, waits: nat -> real, rounds: nat): (events: seq<Event>)
    decreases rounds
  {
    if rounds == 0 then [] else
      var key, wait := FirstKey(s, a), waits(Count(s, a));
      [Poll(a)] + ([Finish(key, BOOM, wait)] + ([Settle(key)] + ([Tick(wait)]
        + Rounds(policy, Next(policy, s, a, waits), a, waits, rounds - 1))))
  }

  lemma RunOfNext(policy: Policy, s: State, e: Event, rest: seq<Event>)
    ensures Run(policy, s, [e] + rest) == Run(policy, Step(policy, s, e), rest)
  {
    hide Step;
    assert ([e] + rest)[1..] == rest;
  }

  lemma RunOfRound(policy: Policy, s: State, key: Key, wait: real, rest: seq<Event>)
    ensures Run(policy, s, [Poll(key.0)] + ([Finish(key, BOOM, wait)] + ([Settle(key)] + ([Tick(wait)] + rest))))
         == Run(policy, AfterRound(policy, s, key, wait), rest)
  {
    hide Run, Step;
    var polled := Step(policy, s, Poll(key.0));
    var failed := Step(policy, polled, Finish(key, BOOM, wait));
    RunOfNext(policy, s, Poll(key.0), [Finish(key, BOOM, wait)] + ([Settle(key)] + ([Tick(wait)] + rest)));
    RunOfNext(policy, polled, Finish(key, BOOM, wait), [Settle(key)] + ([Tick(wait)] + rest));
    RunOfNext(policy, failed, Settle(key), [Tick(wait)] + rest);
    RunOfNext(policy, Step(policy, failed, Settle(key)), Tick(wait), rest);
  }

  lemma RunOfRounds(policy: Policy, s: State, a: string, waits: nat -> real, rounds: nat)
    requires rounds > 0
    ensures var t := Next(policy, s, a, waits);
      Run(policy, s, Rounds(policy, s, a, waits, rounds)) == Run(policy, t, Rounds(policy, t, a, waits, rounds - 1))
  {
    hide Run, Count, AfterRound;
    RunOfRound(policy, s, FirstKey(s, a), waits(Count(s, a)),
               Rounds(policy, Next(policy, s, a, waits), a, waits, rounds - 1));
  }

  /** The retries a message of this count still has. */
  function Spare(maxRetries: nat, count: nat): nat { if count < maxRetries then maxRetries - count else 0 }

  /** Of `rounds` failures in a row those past the remaining retries are refused. */
  function RefusedOf(maxRetries: nat, count: nat, rounds: nat): nat {
    if rounds < Spare(maxRetries, count) then 0 else rounds - Spare(maxRetries, count)
  }

  lemma RefusedPastSpare(maxRetries: nat, count: nat, n: nat)
    ensures RefusedOf(maxRetries, count, Spare(maxRetries, count) + n) == n
  {
  }

  lemma RefusedOfNext(maxRetries: nat, count: nat, rounds: nat)
    ensures rounds == 0 ==> RefusedOf(maxRetries, count, rounds) == 0
    ensures rounds > 0 ==>
      RefusedOf(maxRetries, count, rounds)
        == RefusedOf(maxRetries, count + 1, rounds - 1) + if count < maxRetries then 0 else 1
  {
  }

  lemma BudgetDecides(policy: Policy, m: Mailbox, x: Entry, maxRetries: nat)
    requires RetriesUpTo(policy, maxRetries)
    ensures FailsEarly(policy, Delivered(m, x), BOOM) <==> x.envelope.RetryCount() < maxRetries
  {
    RetryCountStays(policy, m, x, Delivered(m, x), BOOM, "");
    hide Envelope.RetryCount, Inner, Delivered, DeadLettered;
  }

  /** A round counts one retry more and refuses exactly what the budget does not cover. */
  lemma NextIsJudged(policy: Policy, s: State, a: string, c: nat, waits: nat -> real, maxRetries: nat)
    requires Alone(s, a, c) && !Accepts(policy, s.mail) && NonNegative(waits) && RetriesUpTo(policy, maxRetries)
    ensures var t := Next(policy, s, a, waits);
      && Alone(t, a, c) && !Accepts(policy, t.mail) && Count(t, a) == Count(s, a) + 1
      && Refused(t, c) == Refused(s, c) + if Count(s, a) < maxRetries then 0 else 1
  {
    RoundGoesOn(policy, s, a, c, waits(Count(s, a)));
    BudgetDecides(policy, s.mail[a], s.mail[a].queue[0], maxRetries);
    hide AfterRound, Delivered, FailsEarly, RetriesUpTo, Envelope.RetryCount, Accepts, Has, Decimal, NonNegative;
  }

  /** The failures of copy `c` that were refused dead-lettering. */
  function Refused(s: State, c: nat): nat { if c in s.log.tally then s.log.tally[c].refused else 0 }

  lemma RunOfNone(policy: Policy, s: State, a: string, waits: nat -> real)
    ensures Run(policy, s, Rounds(policy, s, a, waits, 0)) == s
  {
  }

  /**
   * While the failure transport does not accept, a message that keeps failing is retried what
   * the budget leaves it and then refused every time, however many rounds that is.
   */
  lemma {:induction false} RefusedFailsForever(policy: Policy, s: State, a: string, c: nat, waits: nat -> real,
                                               maxRetries: nat, rounds: nat)
    requires Alone(s, a, c) && !Accepts(policy, s.mail)
    requires RetriesUpTo(policy, maxRetries) && NonNegative(waits)
    ensures Refused(Run(policy, s, Rounds(policy, s, a, waits, rounds)), c)
         == Refused(s, c) + RefusedOf(maxRetries, Count(s, a), rounds)
    decreases rounds
  {
    hide *;
    RefusedOfNext(maxRetries, Count(s, a), rounds);
    if rounds == 0 {
      RunOfNone(policy, s, a, waits);
    } else {
      RunOfRounds(policy, s, a, waits, rounds);
      NextIsJudged(policy, s, a, c, waits, maxRetries);
      RefusedFailsForever(policy, Next(policy, s, a, waits), a, c, waits, maxRetries, rounds - 1);
    }
  }

  /** The failure transport shuts, a message reaches `a`, and its delay passes. */
  function FirstDispatch(policy: Policy, s: State, f: string, a: string, e: Envelope): State {
    Step(policy, Step(policy, Step(policy, s, CloseTransport(f, 0)), Deposit(a, e)), Tick(Patience(e)))
  }

  function Patience(e: Envelope): real { if e.DelayMs() < 0.0 then 0.0 else e.DelayMs() }

  function FirstEvents(f: string, a: string, e: Envelope): seq<Event> {
    [CloseTransport(f, 0), Deposit(a, e), Tick(Patience(e))]
  }

  lemma RunOfFirst(policy: Policy, s: State, f: string, a: string, e: Envelope, rest: seq<Event>)
    ensures Run(policy, s, FirstEvents(f, a, e) + rest) == Run(policy, FirstDispatch(policy, s, f, a, e), rest)
  {
    hide Run, Step, Patience;
    var shut := Step(policy, s, CloseTransport(f, 0));
    var events := [CloseTransport(f, 0)] + ([Deposit(a, e)] + ([Tick(Patience(e))] + rest));
    assert FirstEvents(f, a, e) + rest == events;
    RunOfNext(policy, s, CloseTransport(f, 0), [Deposit(a, e)] + ([Tick(Patience(e))] + rest));
    RunOfNext(policy, shut, Deposit(a, e), [Tick(Patience(e))] + rest);
    RunOfNext(policy, Step(policy, shut, Deposit(a, e)), Tick(Patience(e)), rest);
  }

  lemma FirstDispatchIsAlone(policy: Policy, s: State, f: string, a: string, e: Envelope)
    requires Initial(s) && a in s.mail && a != f && !Has(e, SentToFailureTransportStamp)
    requires policy.failure == Some(f)
    ensures var t := FirstDispatch(policy, s, f, a, e);
      && Alone(t, a, 0) && !Accepts(policy, t.mail) && Refused(t, 0) == 0 && Count(t, a) == e.RetryCount()
  {
    if Decimal(0) == Decimal(1) {
      DecimalIsInjective(0, 1);
    }
    hide Delivered, Decimal, LastOf;
    var shut := Step(policy, s, CloseTransport(f, 0));
    assert shut.mail[a] == Mailbox(a, [], map[], 0, false, []);
    var sent := Deposited(shut, a, e);
    assert sent.mail[a].queue == [Entry(Decimal(0), e, s.clock + e.DelayMs())];
  }

  /**
   * So the bound `maxRetries + 1` fails on runs from the start, for every budget, every answer of
   * the strategy and every message: where the failure transport is not registered, or is closing,
   * any number of failures can be refused.
   */
  lemma RefusalsAreUnbounded(policy: Policy, s: State, f: string, a: string, e: Envelope, waits: nat -> real,
                             maxRetries: nat, n: nat)
    requires Initial(s) && a in s.mail && a != f && !Has(e, SentToFailureTransportStamp)
    requires policy.failure == Some(f) && RetriesUpTo(policy, maxRetries) && NonNegative(waits)
    ensures exists events :: Refused(Run(policy, s, events), 0) == n
  {
    var t := FirstDispatch(policy, s, f, a, e);
    var rounds := Spare(maxRetries, e.RetryCount()) + n;
    var rest := Rounds(policy, t, a, waits, rounds);
    FirstDispatchIsAlone(policy, s, f, a, e);
    RefusedPastSpare(maxRetries, e.RetryCount(), n);
    hide *;
    RefusedFailsForever(policy, t, a, 0, waits, maxRetries, rounds);
    RunOfFirst(policy, s, f, a, e, rest);
    assert Refused(Run(policy, s, FirstEvents(f, a, e) + rest), 0) == n;
  }
}
