/**
 * What every run of the worker machine keeps true of each message's own history: where its
 * failures say it came from, what remains once the retry bookkeeping is undone, and how many
 * handler failures its retry count stands for.
 */
module WorkerHistory {
  import opened Common
  import opened Envelopes
  import opened InMemory
  import opened Pipeline
  import opened WorkerRuns

  // ---- Stamps ------------------------------------------------------------------------

  /** Every failure stamp names `origin`. */
  ghost predicate Names(e: Envelope, origin: string) {
    forall x :: x in e.stamps && x.cls == SentToFailureTransportStamp ==> TextOf(x, "originalReceiverName") == origin
  }

  predicate Has(e: Envelope, c: Class) { e.Last(c).Some? }

  lemma {:induction false} LastIsMember(stamps: seq<Stamp>, c: Class)
    ensures LastOf(stamps, c).Some? ==> LastOf(stamps, c).value in stamps && LastOf(stamps, c).value.cls == c
    ensures LastOf(stamps, c).None? ==> forall x :: x in stamps ==> x.cls != c
  {
    if stamps != [] {
      LastIsMember(stamps[..|stamps| - 1], c);
      assert stamps == stamps[..|stamps| - 1] + [stamps[|stamps| - 1]];
    }
  }

  lemma NamesAfter(e: Envelope, x: Stamp, c: Class, origin: string)
    requires Names(e, origin)
    ensures Names(e.WithoutAll(c), origin)
    ensures (x.cls == SentToFailureTransportStamp ==> TextOf(x, "originalReceiverName") == origin) ==>
      Names(e.With([x]), origin)
  {
    forall y | y in Drop(e.stamps, {c}) && y.cls == SentToFailureTransportStamp
      ensures TextOf(y, "originalReceiverName") == origin
    {
      DropMembers(e.stamps, {c}, y);
    }
  }

  lemma NamesDelivered(m: Mailbox, entry: Entry, origin: string)
    requires Names(entry.envelope, origin)
    ensures Names(Delivered(m, entry), origin)
  {
    hide Names;
    var e := entry.envelope;
    NamesAfter(e, NewReceived(m.name), ReceivedStamp, origin);
    NamesAfter(e.With([NewReceived(m.name)]), NewMessageId(entry.id), ReceivedStamp, origin);
  }

  lemma NamesInner(policy: Policy, e: Envelope, origin: string)
    requires Names(e, origin)
    ensures Names(Inner(policy, e), origin)
  {
    hide Names, LastOf, Drop;
    NamesAfter(e, NewBusName(policy.bus), ReceivedStamp, origin);
    var named := AddBusName(e, policy.bus);
    match named.Last(SentToFailureTransportStamp)
    case None =>
    case Some(s) =>
      NamesAfter(named, s, ReceivedStamp, origin);
      var received := NewReceived(TextOf(s, "originalReceiverName"));
      NamesAfter(named.WithoutAll(ReceivedStamp), received, ReceivedStamp, origin);
  }

  lemma NamesMoved(policy: Policy, e: Envelope, outcome: Outcome, wait: real, origin: string)
    requires outcome.Failed? && Names(e, origin) && OriginOf(Inner(policy, e)) == origin
    ensures Names(MovedEnvelope(policy, e, outcome, wait), origin)
  {
    hide Names, LastOf, Drop, Inner, OriginOf;
    var seen := Inner(policy, e);
    NamesInner(policy, e, origin);
    var n := NewRedelivery(seen.RetryCount() + 1);
    NamesAfter(seen, n, DelayStamp, origin);
    NamesAfter(seen.With([n]), NewDelay(wait), DelayStamp, origin);
    assert seen.stamps + [n, NewDelay(wait)] == seen.stamps + [n] + [NewDelay(wait)];
    var bare := seen.WithoutAll(DelayStamp);
    var details := NewErrorDetails(outcome.errorClass, outcome.errorText);
    NamesAfter(bare, details, DelayStamp, origin);
    NamesAfter(bare.With([details]), NewSentToFailure(origin), DelayStamp, origin);
  }

  lemma NamesRedelivery(e: Envelope, origin: string)
    requires Names(e, origin)
    ensures Names(Redelivery(e), origin)
  {
    hide Names, LastOf, Drop;
    var n := NewRedelivery(e.RetryCount() + 1);
    NamesAfter(e, n, ReceivedStamp, origin);
    var a := e.WithoutAll(ReceivedStamp);
    NamesAfter(a, n, TransportMessageIdStamp, origin);
    var b := a.WithoutAll(TransportMessageIdStamp);
    NamesAfter(b, n, RedeliveryStamp, origin);
    NamesAfter(b.WithoutAll(RedeliveryStamp), n, RedeliveryStamp, origin);
  }

  /** The pipeline takes a delivery to come from where its failure stamps, or else its transport, say. */
  lemma OriginSeen(policy: Policy, m: Mailbox, entry: Entry, origin: string)
    requires Names(entry.envelope, origin)
    requires m.name == origin || Has(entry.envelope, SentToFailureTransportStamp)
    ensures OriginOf(Inner(policy, Delivered(m, entry))) == origin
  {
    hide LastOf, Drop;
    var e, named := Delivered(m, entry), AddBusName(Delivered(m, entry), policy.bus);
    NamesDelivered(m, entry, origin);
    DeliveryKeepsLast(m, entry, SentToFailureTransportStamp);
    LastOfWith(e, NewBusName(policy.bus), SentToFailureTransportStamp);
    LastOfWith(e, NewBusName(policy.bus), ReceivedStamp);
    match named.Last(SentToFailureTransportStamp)
    case None =>
      LastOfWith(entry.envelope, NewReceived(m.name), ReceivedStamp);
      LastOfWith(entry.envelope.With([NewReceived(m.name)]), NewMessageId(entry.id), ReceivedStamp);
    case Some(s) =>
      LastIsMember(e.stamps, SentToFailureTransportStamp);
      assert s in e.stamps && s.cls == SentToFailureTransportStamp;
      LastOfWith(named.WithoutAll(ReceivedStamp), NewReceived(TextOf(s, "originalReceiverName")), ReceivedStamp);
  }

  lemma InnerIsNamed(policy: Policy, e: Envelope)
    ensures Has(Inner(policy, e), BusNameStamp)
  {
    hide LastOf, Drop;
    LastOfWith(e, NewBusName(policy.bus), BusNameStamp);
    var named := AddBusName(e, policy.bus);
    DropKeepsLast(named.stamps, {ReceivedStamp}, BusNameStamp);
    match named.Last(SentToFailureTransportStamp)
    case None =>
    case Some(s) =>
      LastOfWith(named.WithoutAll(ReceivedStamp), NewReceived(TextOf(s, "originalReceiverName")), BusNameStamp);
  }

  lemma DeadLetteredStamps(e: Envelope, failed: Outcome, origin: string)
    requires failed.Failed?
    ensures Has(DeadLettered(e, failed, origin), SentToFailureTransportStamp)
    ensures !Has(DeadLettered(e, failed, origin), DelayStamp)
    ensures Has(e, BusNameStamp) ==> Has(DeadLettered(e, failed, origin), BusNameStamp)
  {
    hide LastOf, Drop;
    var bare, details := e.WithoutAll(DelayStamp), NewErrorDetails(failed.errorClass, failed.errorText);
    DropKeepsLast(e.stamps, {DelayStamp}, DelayStamp);
    LastOfWith(bare, details, DelayStamp);
    LastOfWith(bare.With([details]), NewSentToFailure(origin), DelayStamp);
    LastOfWith(bare.With([details]), NewSentToFailure(origin), SentToFailureTransportStamp);
    DeadLetteredKeepsLast(e, failed, origin, BusNameStamp);
  }

  lemma RedeliveryKeepsLast(e: Envelope, c: Class)
    requires c !in {ReceivedStamp, TransportMessageIdStamp, RedeliveryStamp}
    ensures Redelivery(e).Last(c) == e.Last(c)
  {
    hide LastOf, Drop;
    DropKeepsLast(e.stamps, {ReceivedStamp}, c);
    var a := e.WithoutAll(ReceivedStamp);
    DropKeepsLast(a.stamps, {TransportMessageIdStamp}, c);
    var b := a.WithoutAll(TransportMessageIdStamp);
    DropKeepsLast(b.stamps, {RedeliveryStamp}, c);
    LastOfWith(b.WithoutAll(RedeliveryStamp), NewRedelivery(e.RetryCount() + 1), c);
  }

  // ---- Entries -----------------------------------------------------------------------

  ghost predicate Held(m: Mailbox, x: Entry) { x in m.queue || (x.id in m.inFlight && m.inFlight[x.id] == x) }

  /** The entry a call adds, if any. */
  function PushedBy(mail: World, call: Option<(string, Call)>, now: real): Option<(string, Entry)> {
    if call.None? || call.value.0 !in mail then None
    else
      var m := mail[call.value.0];
      match call.value.1
      case SendCall(e) =>
        if m.closing then None else Some((call.value.0, Entry(Decimal(m.nextId), e, now + e.DelayMs())))
      case RejectCall(e, id) =>
        if id !in m.inFlight then None else Some((call.value.0, Entry(Decimal(m.nextId), Redelivery(e), now)))
      case _ => None
  }

  lemma HeldAfter(mail: World, after: World, call: Option<(string, Call)>, now: real, a: string, x: Entry)
    requires MailAfter(mail, after, call, now) && a in after && Held(after[a], x)
    ensures a in mail && (Held(mail[a], x) || PushedBy(mail, call, now) == Some((a, x)))
  {
    if call.Some? && call.value.0 == a {
      match call.value.1
      case AckCall(id) => WithoutMembers(mail[a].queue, id);
      case _ =>
    }
  }

  /** A new entry's key is not the key of any entry held before. */
  lemma PushedIsFresh(mail: World, call: Option<(string, Call)>, now: real, a: string, x: Entry)
    requires Sound(mail) && a in mail && Held(mail[a], x)
    ensures var p := PushedBy(mail, call, now);
      p.Some? ==>
        && p.value.0 in mail && (p.value.0, p.value.1.id) == NextKey(mail, p.value.0)
        && (a, x.id) != NextKey(mail, p.value.0)
  {
    var m := mail[a];
    NextIdIsFresh(m.nextId);
    if x in m.queue {
      var i :| 0 <= i < |m.queue| && m.queue[i] == x;
    }
  }

  /** `later` says of old keys and copies what `log` said, the key just put apart. */
  ghost predicate Agrees(log: Ledger, later: Ledger, put: Option<Key>) {
    && log.copies <= later.copies
    && (forall k :: k in log.home && put != Some(k) ==> k in later.home && later.home[k] == log.home[k])
    && (forall c: nat :: c < log.copies && c in log.origin && c in log.first ==>
         c in later.origin && later.origin[c] == log.origin[c] && c in later.first && later.first[c] == log.first[c])
  }

  function PutKey(mail: World, call: Option<(string, Call)>, now: real): Option<Key> {
    match PushedBy(mail, call, now)
    case None => None
    case Some(p) => Some((p.0, p.1.id))
  }

  lemma StepAgrees(policy: Policy, s: State, ev: Event)
    requires Fitting(s.mail, s.jobs)
    ensures Agrees(s.log, Step(policy, s, ev).log, PutKey(s.mail, CallOf(policy, s, ev), s.clock))
  {
    hide Delivered, Acked, Rejected, Closed, Sent, Taken, Counted;
    match ev
    case Poll(alias) => PollKeepsLog(s, alias); hide Polled, Finished, Deposited, WorkerSettled;
    case Finish(key, outcome, wait) =>
      FinishAgrees(policy, s, key, outcome, wait);
      hide Finished, Deposited, WorkerSettled, Polled, CallOf, PutKey;
    case Settle(key) => SettleAgrees(policy, s, key); hide Finished, Deposited, WorkerSettled, Polled, CallOf, PutKey;
    case Deposit(alias, e) => hide Finished, WorkerSettled, Polled;
    case _ => hide Finished, Deposited, WorkerSettled, Polled;
  }

  lemma FinishAgrees(policy: Policy, s: State, key: Key, outcome: Outcome, wait: real)
    ensures Agrees(s.log, Finished(policy, s, key, outcome, wait).log,
                   PutKey(s.mail, CallOf(policy, s, Finish(key, outcome, wait)), s.clock))
  {
    hide Counted, MovedEnvelope, FailsEarly;
    if key in s.jobs {
      DispatchShape(policy, s.mail, s.jobs[key].envelope, outcome, wait, s.clock);
    }
    hide Dispatch;
  }

  lemma SettleAgrees(policy: Policy, s: State, key: Key)
    requires Fitting(s.mail, s.jobs)
    ensures Agrees(s.log, WorkerSettled(s, key).log, PutKey(s.mail, CallOf(policy, s, Settle(key)), s.clock))
  {
    hide Acked, Rejected, Redelivery;
    if key in s.jobs {
      assert JobFits(s.mail, key, s.jobs[key]);
    }
    hide Delivered;
  }

  // ---- Origin and undo ---------------------------------------------------------------

  /**
   * The entry `k` with envelope `q`: its failure stamps name the transport its message was
   * first received from; it is on that transport, or dead-lettered on the failure transport
   * without a delay; and undoing the bookkeeping gives the message as first received.
   */
  ghost predicate Faithful(policy: Policy, log: Ledger, k: Key, q: Envelope) {
    && k in log.home && log.home[k] < log.copies && log.home[k] in log.origin && log.home[k] in log.first
    && Names(q, log.origin[log.home[k]])
    && (k.0 == log.origin[log.home[k]] || (policy.failure == Some(k.0) && Has(q, SentToFailureTransportStamp)
         && !Has(q, DelayStamp) && Has(q, BusNameStamp)))
    && Undone(q, policy.bus) == Undone(log.first[log.home[k]], policy.bus)
  }

  ghost predicate AllFaithful(policy: Policy, s: State) {
    forall a, x :: a in s.mail && Held(s.mail[a], x) ==> Faithful(policy, s.log, (a, x.id), x.envelope)
  }

  lemma FaithfulStays(policy: Policy, log: Ledger, later: Ledger, put: Option<Key>, k: Key, q: Envelope)
    requires Faithful(policy, log, k, q) && Agrees(log, later, put) && put != Some(k)
    ensures Faithful(policy, later, k, q)
  {
    hide Names, Undone, Has;
  }

  lemma MovedIsFaithful(policy: Policy, log: Ledger, m: Mailbox, entry: Entry, outcome: Outcome, wait: real, to: Key,
                        later: Ledger)
    requires Faithful(policy, log, (m.name, entry.id), entry.envelope) && outcome.Failed?
    requires var e := Delivered(m, entry);
      if FailsEarly(policy, e, outcome) then to.0 == OriginOf(Inner(policy, e)) else policy.failure == Some(to.0)
    requires to in later.home && later.home[to] == log.home[(m.name, entry.id)] && later.copies == log.copies
    requires later.origin == log.origin && later.first == log.first
    ensures Faithful(policy, later, to, MovedEnvelope(policy, Delivered(m, entry), outcome, wait))
    ensures FailsEarly(policy, Delivered(m, entry), outcome) ==> to.0 == log.origin[log.home[(m.name, entry.id)]]
  {
    var e := Delivered(m, entry);
    var origin := log.origin[log.home[(m.name, entry.id)]];
    var seen := Inner(policy, e);
    OriginSeen(policy, m, entry, origin);
    NamesDelivered(m, entry, origin);
    NamesMoved(policy, e, outcome, wait, origin);
    DeliveryKeepsUndone(m, entry, policy.bus);
    InnerKeepsUndone(policy, e);
    RetryKeepsUndone(seen, wait, policy.bus);
    DeadLetteringKeepsUndone(seen, outcome, origin, policy.bus);
    InnerIsNamed(policy, e);
    DeadLetteredStamps(seen, outcome, origin);
    hide Names, Undone, Has, Inner, OriginOf, Delivered, Retried, DeadLettered;
  }

  lemma RejectedIsFaithful(policy: Policy, log: Ledger, m: Mailbox, entry: Entry, to: Key, later: Ledger)
    requires Faithful(policy, log, (m.name, entry.id), entry.envelope) && to.0 == m.name
    requires to in later.home && later.home[to] == log.home[(m.name, entry.id)] && later.copies == log.copies
    requires later.origin == log.origin && later.first == log.first
    ensures Faithful(policy, later, to, Redelivery(Delivered(m, entry)))
  {
    var e := Delivered(m, entry);
    NamesDelivered(m, entry, log.origin[log.home[(m.name, entry.id)]]);
    NamesRedelivery(e, log.origin[log.home[(m.name, entry.id)]]);
    DeliveryKeepsUndone(m, entry, policy.bus);
    RedeliveryKeepsUndone(e, policy.bus);
    DeliveryKeepsLast(m, entry, SentToFailureTransportStamp);
    DeliveryKeepsLast(m, entry, DelayStamp);
    DeliveryKeepsLast(m, entry, BusNameStamp);
    RedeliveryKeepsLast(e, SentToFailureTransportStamp);
    RedeliveryKeepsLast(e, DelayStamp);
    RedeliveryKeepsLast(e, BusNameStamp);
    hide Names, Undone, Delivered, Redelivery, LastOf;
  }

  lemma DepositIsFaithful(policy: Policy, s: State, alias: string, e: Envelope)
    requires Sound(s.mail) && alias in s.mail && !s.mail[alias].closing && !Has(e, SentToFailureTransportStamp)
    ensures Faithful(policy, Deposited(s, alias, e).log, NextKey(s.mail, alias), e)
  {
    LastIsMember(e.stamps, SentToFailureTransportStamp);
    var key := NextKey(s.mail, alias);
    DeliveryKeepsUndone(s.mail[alias], Entry(key.1, e, s.clock + e.DelayMs()), policy.bus);
    hide Undone, LastOf, Delivered, Sound, Sent;
  }

  lemma HeldByJob(s: State, key: Key)
    requires Sound(s.mail) && Fitting(s.mail, s.jobs) && key in s.jobs
    ensures var m := s.mail[key.0];
      && key.0 in s.mail && key.1 in m.inFlight && m.name == key.0 && Held(m, m.inFlight[key.1])
      && m.inFlight[key.1].id == key.1 && s.jobs[key].envelope == Delivered(m, m.inFlight[key.1])
  {
    hide Consistent, Delivered;
    assert JobFits(s.mail, key, s.jobs[key]);
  }

  /** The entry a step adds is faithful. */
  lemma PushedIsFaithful(policy: Policy, s: State, ev: Event)
    requires Sound(s.mail) && Fitting(s.mail, s.jobs) && AllFaithful(policy, s)
    ensures var p := PushedBy(s.mail, CallOf(policy, s, ev), s.clock);
      p.Some? ==> Faithful(policy, Step(policy, s, ev).log, (p.value.0, p.value.1.id), p.value.1.envelope)
  {
    match ev
    case Deposit(alias, e) =>
      if alias in s.mail && !s.mail[alias].closing && !Has(e, SentToFailureTransportStamp) {
        DepositIsFaithful(policy, s, alias, e);
      }
      hide Sound, Fitting, Faithful, Deposited, AllFaithful;
    case Finish(key, outcome, wait) =>
      FinishIsFaithful(policy, s, key, outcome, wait);
      hide Sound, Fitting, Faithful, Finished, PushedBy, CallOf, AllFaithful;
    case Settle(key) =>
      SettleIsFaithful(policy, s, key);
      hide Sound, Fitting, Faithful, WorkerSettled, PushedBy, CallOf, AllFaithful;
    case _ => hide Sound, Fitting, Faithful;
  }

  lemma FinishIsFaithful(policy: Policy, s: State, key: Key, outcome: Outcome, wait: real)
    requires Sound(s.mail) && Fitting(s.mail, s.jobs) && AllFaithful(policy, s)
    ensures var p := PushedBy(s.mail, CallOf(policy, s, Finish(key, outcome, wait)), s.clock);
      p.Some? ==>
        Faithful(policy, Finished(policy, s, key, outcome, wait).log, (p.value.0, p.value.1.id), p.value.1.envelope)
  {
    if CanFinish(s, key) {
      var e := s.jobs[key].envelope;
      var (mail, fate) := Dispatch(policy, s.mail, e, outcome, wait, s.clock);
      DispatchShape(policy, s.mail, e, outcome, wait, s.clock);
      HeldByJob(s, key);
      var m := s.mail[key.0];
      var entry := m.inFlight[key.1];
      assert Faithful(policy, s.log, (m.name, entry.id), entry.envelope);
      if fate.Moved? {
        hide Sound, Fitting, AllFaithful, Faithful, MovedEnvelope, Inner, OriginOf, Delivered, Dispatch, FailsEarly,
             Counted;
        MovedIsFaithful(policy, s.log, m, entry, outcome, wait, NextKey(s.mail, fate.alias),
                        Finished(policy, s, key, outcome, wait).log);
      }
    }
  }

  lemma SettlePushes(policy: Policy, s: State, key: Key)
    requires Fitting(s.mail, s.jobs)
    ensures var p := PushedBy(s.mail, CallOf(policy, s, Settle(key)), s.clock);
      p.Some? ==>
        && key in s.jobs && key in s.log.home && p.value.0 == key.0
        && (p.value.0, p.value.1.id) == NextKey(s.mail, key.0)
        && p.value.1.envelope == Redelivery(s.jobs[key].envelope)
        && WorkerSettled(s, key).log == Put(s.log, NextKey(s.mail, key.0), s.log.home[key])
  {
    hide Acked, Rejected, Redelivery;
    if key in s.jobs {
      assert JobFits(s.mail, key, s.jobs[key]);
      DeliveredId(s.mail[key.0], s.mail[key.0].inFlight[key.1]);
    }
    hide Delivered, Fitting;
  }

  lemma SettleIsFaithful(policy: Policy, s: State, key: Key)
    requires Sound(s.mail) && Fitting(s.mail, s.jobs) && AllFaithful(policy, s)
    ensures var p := PushedBy(s.mail, CallOf(policy, s, Settle(key)), s.clock);
      p.Some? ==> Faithful(policy, WorkerSettled(s, key).log, (p.value.0, p.value.1.id), p.value.1.envelope)
  {
    var p := PushedBy(s.mail, CallOf(policy, s, Settle(key)), s.clock);
    SettlePushes(policy, s, key);
    hide CallOf, PushedBy, WorkerSettled, Delivered, Redelivery, Faithful, Held;
    if p.Some? {
      HeldByJob(s, key);
      var m := s.mail[key.0];
      var entry := m.inFlight[key.1];
      assert Faithful(policy, s.log, (m.name, entry.id), entry.envelope);
      hide Sound, Fitting, AllFaithful;
      RejectedIsFaithful(policy, s.log, m, entry, NextKey(s.mail, key.0), WorkerSettled(s, key).log);
    }
  }

  lemma StepKeepsFaithful(policy: Policy, s: State, ev: Event)
    requires Sound(s.mail) && Fitting(s.mail, s.jobs) && AllFaithful(policy, s)
    ensures AllFaithful(policy, Step(policy, s, ev))
  {
    var t, call := Step(policy, s, ev), CallOf(policy, s, ev);
    StepMakesOneCall(policy, s, ev);
    StepAgrees(policy, s, ev);
    PushedIsFaithful(policy, s, ev);
    hide Step, CallOf, Faithful, Agrees, Sound, Fitting, MailAfter, PushedBy, Held;
    forall a, x | a in t.mail && Held(t.mail[a], x) ensures Faithful(policy, t.log, (a, x.id), x.envelope) {
      HeldAfter(s.mail, t.mail, call, s.clock, a, x);
      if Held(s.mail[a], x) && a in s.mail {
        PushedIsFresh(s.mail, call, s.clock, a, x);
        FaithfulStays(policy, s.log, t.log, PutKey(s.mail, call, s.clock), (a, x.id), x.envelope);
      }
    }
  }

  lemma {:induction false} RunKeepsFaithful(policy: Policy, s: State, events: seq<Event>)
    requires Conserved(s) && AllFaithful(policy, s)
    ensures Conserved(Run(policy, s, events)) && AllFaithful(policy, Run(policy, s, events))
    decreases |events|
  {
    if events != [] {
      StepConserves(policy, s, events[0]);
      StepKeepsFaithful(policy, s, events[0]);
      hide Conserved, AllFaithful, Step;
      RunKeepsFaithful(policy, Step(policy, s, events[0]), events[1..]);
    }
  }

  /** Every failure stamp on the envelope of entry `k` names where its copy was first received from. */
  ghost predicate NamesItsOrigin(log: Ledger, k: Key, q: Envelope) {
    k in log.home && log.home[k] in log.origin && Names(q, log.origin[log.home[k]])
  }

  /** A retry of delivery `key` goes to the transport the message was first received from, or is refused. */
  ghost predicate RetriesHome(policy: Policy, s: State, key: Key, outcome: Outcome, wait: real)
    requires key in s.jobs
  {
    match Dispatch(policy, s.mail, s.jobs[key].envelope, outcome, wait, s.clock).1
    case Moved(alias) => key in s.log.home && s.log.home[key] in s.log.origin && alias == s.log.origin[s.log.home[key]]
    case fate => fate.Kept?
  }

  /**
   * Origin stability: in every reachable state every failure stamp of every message names the
   * transport the message was first received from, and the next retry of any delivery, from
   * whichever transport it is consumed, goes to that transport.
   */
  lemma OriginIsStable(policy: Policy, start: State, events: seq<Event>)
    requires Initial(start)
    ensures var s := WorkerRuns.Run(policy, start, events);
      && (forall a, x :: a in s.mail && Held(s.mail[a], x) ==> NamesItsOrigin(s.log, (a, x.id), x.envelope))
      && (forall key, outcome, wait :: CanFinish(s, key) && FailsEarly(policy, s.jobs[key].envelope, outcome) ==>
           RetriesHome(policy, s, key, outcome, wait))
  {
    InitialConserved(start);
    RunKeepsFaithful(policy, start, events);
    var s := Run(policy, start, events);
    hide Run, Initial, Held, Names, RetriesHome, FailsEarly, Conserved;
    forall a, x | a in s.mail && Held(s.mail[a], x) ensures NamesItsOrigin(s.log, (a, x.id), x.envelope) {
      assert Faithful(policy, s.log, (a, x.id), x.envelope);
    }
    hide AllFaithful, Faithful, NamesItsOrigin;
    forall key, outcome, wait | CanFinish(s, key) && FailsEarly(policy, s.jobs[key].envelope, outcome)
      ensures RetriesHome(policy, s, key, outcome, wait)
    {
      RetryGoesHome(policy, s, key, outcome, wait);
    }
  }

  lemma RetryGoesHome(policy: Policy, s: State, key: Key, outcome: Outcome, wait: real)
    requires Conserved(s) && AllFaithful(policy, s) && CanFinish(s, key)
    requires FailsEarly(policy, s.jobs[key].envelope, outcome)
    ensures RetriesHome(policy, s, key, outcome, wait)
  {
    hide Placed, Staffed, Recorded;
    HeldByJob(s, key);
    var m := s.mail[key.0];
    var entry := m.inFlight[key.1];
    hide Sound, Fitting, Held, Names, Undone;
    assert Held(m, entry) && Faithful(policy, s.log, (key.0, entry.id), entry.envelope);
    OriginSeen(policy, m, entry, s.log.origin[s.log.home[key]]);
    DispatchShape(policy, s.mail, s.jobs[key].envelope, outcome, wait, s.clock);
    hide Dispatch, Inner, OriginOf, Delivered, MovedEnvelope, AllFaithful, Faithful;
  }

  // ---- Retry budget ------------------------------------------------------------------

  /** The strategy retries while the count is below `maxRetries`. */
  ghost predicate RetriesUpTo(policy: Policy, maxRetries: nat) {
    forall e :: policy.retryable(e) <==> e.RetryCount() < maxRetries
  }

  /**
   * The retry count of a live entry is the one its message arrived with, plus one for every
   * early or refused handler failure and every other throw, a delivery about to be rejected
   * being one behind.
   */
  ghost predicate Balanced(log: Ledger, k: Key, q: Envelope, kept: bool) {
    && k in log.home && log.home[k] in log.tally && log.home[k] in log.first
    && var t, arrived := log.tally[log.home[k]], log.first[log.home[k]].RetryCount();
       arrived + t.early + t.refused + t.thrown == q.RetryCount() + if kept then 1 else 0
  }

  ghost predicate KeptJob(jobs: Jobs, k: Key) { k in jobs && jobs[k].fate == Some(Kept) }

  ghost predicate AllBalanced(s: State) {
    forall a, x :: a in s.mail && Held(s.mail[a], x) && (a, x.id) in Live(s.mail, s.jobs) ==>
      Balanced(s.log, (a, x.id), x.envelope, KeptJob(s.jobs, (a, x.id)))
  }

  /**
   * Early failures stay within the budget; once a failure past it went through, they used the
   * whole budget unless retries were already spent on arrival, on refusals or on other throws.
   */
  ghost predicate InBudget(t: Tally, arrived: nat, maxRetries: nat) {
    && t.early <= maxRetries
    && (t.sunk > 0 && arrived == 0 && t.refused == 0 && t.thrown == 0 ==> t.early == maxRetries)
  }

  ghost predicate WithinBudget(log: Ledger, maxRetries: nat) {
    forall c: nat :: c < log.copies && c in log.tally && c in log.first ==>
      InBudget(log.tally[c], log.first[c].RetryCount(), maxRetries)
  }

  /** A step leaves no entry live that was not, the one it adds apart. */
  lemma LiveOnlyGains(policy: Policy, s: State, ev: Event, k: Key)
    requires Sound(s.mail) && Fitting(s.mail, s.jobs) && k in Live(Step(policy, s, ev).mail, Step(policy, s, ev).jobs)
    ensures k in Live(s.mail, s.jobs) || PutKey(s.mail, CallOf(policy, s, ev), s.clock) == Some(k)
  {
    hide Sound, Fitting, Delivered, Dispatch, Judged, Counted, MovedEnvelope;
    match ev
    case Tick(d) =>
    case Deposit(alias, e) => if alias in s.mail { PushLives(s.mail, s.jobs, alias, e, s.clock + e.DelayMs()); }
      hide Live;
    case Poll(alias) => PollGains(s, alias, k); hide Live, Polled;
    case Finish(key, outcome, wait) =>
      FinishGains(policy, s, key, outcome, wait, k);
      hide Live, Finished, PutKey, CallOf;
    case Settle(key) => SettleGains(policy, s, key, k); hide Live, WorkerSettled, PutKey, CallOf;
    case CloseTransport(alias, caller) =>
  }

  lemma PollGains(s: State, alias: string, k: Key)
    requires Sound(s.mail) && Fitting(s.mail, s.jobs) && k in Live(Polled(s, alias).mail, Polled(s, alias).jobs)
    ensures k in Live(s.mail, s.jobs)
  {
    if Polled(s, alias) != s {
      var m := s.mail[alias];
      TakeLives(s.mail, s.jobs, alias, s.clock, Job(Delivered(m, m.queue[FirstDue(m.queue, s.clock).value]), None));
    }
    hide Sound, Fitting, Live, Taken, Delivered;
  }

  lemma FinishPuts(policy: Policy, s: State, key: Key, outcome: Outcome, wait: real)
    requires CanFinish(s, key)
    ensures var fate := Dispatch(policy, s.mail, s.jobs[key].envelope, outcome, wait, s.clock).1;
      PutKey(s.mail, CallOf(policy, s, Finish(key, outcome, wait)), s.clock)
        == if fate.Moved? then Some(NextKey(s.mail, fate.alias)) else None
  {
    DispatchShape(policy, s.mail, s.jobs[key].envelope, outcome, wait, s.clock);
    hide Dispatch, MovedEnvelope, FailsEarly, Inner, OriginOf, CanFinish;
  }

  lemma FinishGains(policy: Policy, s: State, key: Key, outcome: Outcome, wait: real, k: Key)
    requires Sound(s.mail) && Fitting(s.mail, s.jobs)
    requires k in Live(Finished(policy, s, key, outcome, wait).mail, Finished(policy, s, key, outcome, wait).jobs)
    ensures k in Live(s.mail, s.jobs)
         || PutKey(s.mail, CallOf(policy, s, Finish(key, outcome, wait)), s.clock) == Some(k)
  {
    hide Sound, Fitting, Live, Dispatch, Judged, Counted, MovedEnvelope, FailsEarly, PutKey, CallOf;
    if CanFinish(s, key) {
      FinishLives(policy, s, key, outcome, wait);
      FinishPuts(policy, s, key, outcome, wait);
    }
  }

  lemma SettlePuts(policy: Policy, s: State, key: Key)
    requires Fitting(s.mail, s.jobs) && WorkerSettled(s, key) != s && Working(s.jobs, key)
    ensures PutKey(s.mail, CallOf(policy, s, Settle(key)), s.clock) == Some(NextKey(s.mail, key.0))
    ensures s.jobs[key].fate == Some(Kept)
  {
    hide Delivered, Rejected, Acked, Redelivery;
    assert JobFits(s.mail, key, s.jobs[key]);
  }

  lemma SettleGains(policy: Policy, s: State, key: Key, k: Key)
    requires Sound(s.mail) && Fitting(s.mail, s.jobs)
    requires k in Live(WorkerSettled(s, key).mail, WorkerSettled(s, key).jobs)
    ensures k in Live(s.mail, s.jobs) || PutKey(s.mail, CallOf(policy, s, Settle(key)), s.clock) == Some(k)
  {
    if WorkerSettled(s, key) != s {
      SettleLives(s, key);
      hide WorkerSettled;
      if Working(s.jobs, key) {
        SettlePuts(policy, s, key);
      }
    }
    hide Sound, Fitting, Live, CallOf, PutKey, WorkerSettled;
  }

  // ---- Each step keeps the budget ----------------------------------------------------

  /** The finished delivery's own entry, or the one its copy moved to, is balanced afterwards. */
  lemma FinishBalances(policy: Policy, m: Mailbox, entry: Entry, t: Tally, arrived: nat, outcome: Outcome, wait: real,
                       kept: bool, maxRetries: nat)
    requires RetriesUpTo(policy, maxRetries)
    requires arrived + t.early + t.refused + t.thrown == entry.envelope.RetryCount() && InBudget(t, arrived, maxRetries)
    ensures var e := Delivered(m, entry);
      var u := Counted(t, FailsEarly(policy, e, outcome), outcome.Failed?, kept);
      && InBudget(u, arrived, maxRetries)
      && (kept ==> arrived + u.early + u.refused + u.thrown == entry.envelope.RetryCount() + 1)
      && (!kept && outcome.Failed? ==>
           arrived + u.early + u.refused + u.thrown == MovedEnvelope(policy, e, outcome, wait).RetryCount())
  {
    var e := Delivered(m, entry);
    var failed := if outcome.Failed? then outcome else Failed("", "");
    RetryCountStays(policy, m, entry, e, failed, "");
    RetryCountGrows(Inner(policy, e), wait);
    RetryCountStays(policy, m, entry, Inner(policy, e), failed, OriginOf(Inner(policy, e)));
    hide Inner, Delivered, Retried, DeadLettered, LastOf, OriginOf;
  }

  /** The copy whose tally a step may change. */
  function JudgedCopy(s: State, ev: Event): Option<nat> {
    if ev.Finish? && CanFinish(s, ev.key) then Some(s.log.home[ev.key]) else None
  }

  /** The other copies' tallies and the other deliveries' fates stay as they were. */
  ghost predicate TalliesStay(s: State, t: State, judged: Option<nat>) {
    && (forall c: nat :: c < s.log.copies && judged != Some(c) && c in s.log.tally ==>
         c in t.log.tally && t.log.tally[c] == s.log.tally[c])
    && (forall c: nat :: s.log.copies <= c < t.log.copies ==> c in t.log.tally && t.log.tally[c] == Tally(0, 0, 0, 0))
  }

  lemma StepKeepsTallies(policy: Policy, s: State, ev: Event)
    ensures TalliesStay(s, Step(policy, s, ev), JudgedCopy(s, ev))
  {
    hide Delivered, Acked, Rejected, Closed, Sent, Taken, Counted, Dispatch;
    match ev
    case Poll(alias) => PollKeepsLog(s, alias); hide Polled, Finished, Deposited, WorkerSettled;
    case Finish(key, outcome, wait) => hide Deposited, WorkerSettled, Polled, FailsEarly;
    case Settle(key) => hide Finished, Deposited, Polled;
    case Deposit(alias, e) => hide Finished, WorkerSettled, Polled;
    case _ => hide Finished, Deposited, WorkerSettled, Polled;
  }

  lemma StepKeepsKept(policy: Policy, s: State, ev: Event, k: Key)
    requires Sound(s.mail) && Fitting(s.mail, s.jobs) && k in Live(s.mail, s.jobs)
    requires k in Live(Step(policy, s, ev).mail, Step(policy, s, ev).jobs)
    requires !(ev.Finish? && ev.key == k) && PutKey(s.mail, CallOf(policy, s, ev), s.clock) != Some(k)
    ensures KeptJob(Step(policy, s, ev).jobs, k) == KeptJob(s.jobs, k)
  {
    hide Sound, Fitting, PutKey, CallOf, Live, Polled, WorkerSettled, Deposited, Dispatch, Judged, Counted, Closed;
    match ev
    case Poll(alias) => if k in Polled(s, alias).jobs { PollFate(s, alias, k); } else { PollKeepsJobs(s, alias); }
    case Settle(key) =>
      if WorkerSettled(s, key) != s && Working(s.jobs, key) {
        SettlePuts(policy, s, key);
      }
      SettleKeepsKept(s, key, k);
    case Deposit(alias, e) => DepositKeepsJobs(s, alias, e);
    case _ =>
  }

  lemma DepositKeepsJobs(s: State, alias: string, e: Envelope)
    ensures Deposited(s, alias, e).jobs == s.jobs
  {
  }

  lemma PollKeepsJobs(s: State, alias: string)
    ensures forall k :: k in s.jobs ==> k in Polled(s, alias).jobs
  {
  }

  lemma PollFate(s: State, alias: string, k: Key)
    requires Sound(s.mail) && Fitting(s.mail, s.jobs) && k in Polled(s, alias).jobs
    ensures k in s.jobs ==> Polled(s, alias).jobs[k] == s.jobs[k]
    ensures k !in s.jobs ==> Polled(s, alias).jobs[k].fate.None?
    ensures forall j :: j in s.jobs ==> j in Polled(s, alias).jobs
  {
    PollStarts(s, alias, k);
    hide Sound, Fitting, Taken, Delivered, JobFits;
  }

  lemma SettleKeepsKept(s: State, key: Key, k: Key)
    requires Sound(s.mail) && Fitting(s.mail, s.jobs) && k in Live(s.mail, s.jobs)
    requires k in Live(WorkerSettled(s, key).mail, WorkerSettled(s, key).jobs)
    requires NextKey(s.mail, key.0) != k || WorkerSettled(s, key) == s || !Working(s.jobs, key)
    ensures KeptJob(WorkerSettled(s, key).jobs, k) == KeptJob(s.jobs, k)
  {
    hide Live, Sound, Fitting, WorkerSettled, NextKey;
    if WorkerSettled(s, key) != s {
      SettleLives(s, key);
      SettleFrees(s, key);
    }
  }

  lemma SettleFrees(s: State, key: Key)
    requires WorkerSettled(s, key) != s
    ensures key in s.jobs && s.jobs[key].fate.Some? && WorkerSettled(s, key).jobs == s.jobs - {key}
  {
    hide Rejected, Acked, Put, NextKey, LastOf;
  }

  lemma DepositBalances(s: State, alias: string, e: Envelope)
    requires alias in s.mail && !s.mail[alias].closing && !Has(e, SentToFailureTransportStamp)
    ensures Balanced(Deposited(s, alias, e).log, NextKey(s.mail, alias), e, false)
  {
    DeliveryKeepsLast(s.mail[alias], Entry(NextKey(s.mail, alias).1, e, s.clock + e.DelayMs()), RedeliveryStamp);
    hide LastOf, Delivered, Sent;
  }

  lemma SettleBalances(policy: Policy, s: State, key: Key)
    requires Sound(s.mail) && Fitting(s.mail, s.jobs) && AllBalanced(s)
    ensures var p := PushedBy(s.mail, CallOf(policy, s, Settle(key)), s.clock);
      p.Some? ==> Balanced(WorkerSettled(s, key).log, (p.value.0, p.value.1.id), p.value.1.envelope, false)
  {
    hide Held, Live, Delivered, Acked, Rejected, Balanced, LastOf;
    if PushedBy(s.mail, CallOf(policy, s, Settle(key)), s.clock).Some? {
      SettlePushes(policy, s, key);
      KeptWhenPushed(policy, s, key);
      HeldByJob(s, key);
      ReleaseLives(s.mail, s.jobs, key);
      var m := s.mail[key.0];
      var entry := m.inFlight[key.1];
      hide Fitting, Sound, PushedBy, CallOf;
      assert Balanced(s.log, (key.0, entry.id), entry.envelope, true);
      RejectBalances(s.log, key, NextKey(s.mail, key.0), m, entry);
    }
  }

  lemma KeptWhenPushed(policy: Policy, s: State, key: Key)
    requires PushedBy(s.mail, CallOf(policy, s, Settle(key)), s.clock).Some?
    ensures key in s.jobs && s.jobs[key].fate == Some(Kept) && Working(s.jobs, key)
  {
    hide Redelivery;
  }

  lemma RejectBalances(log: Ledger, key: Key, to: Key, m: Mailbox, entry: Entry)
    requires Balanced(log, key, entry.envelope, true)
    ensures Balanced(Put(log, to, log.home[key]), to, Redelivery(Delivered(m, entry)), false)
  {
    RetryCountGrows(Delivered(m, entry), 0.0);
    DeliveryKeepsLast(m, entry, RedeliveryStamp);
    hide LastOf, Delivered, Redelivery, Retried;
  }

  lemma OnlyHeldUnderId(m: Mailbox, x: Entry, id: string)
    requires Consistent(m) && Held(m, x) && x.id == id && id in m.inFlight
    ensures x == m.inFlight[id]
  {
  }

  lemma FinishPushes(policy: Policy, s: State, key: Key, outcome: Outcome, wait: real)
    requires CanFinish(s, key)
    ensures var e := s.jobs[key].envelope;
      var fate := Dispatch(policy, s.mail, e, outcome, wait, s.clock).1;
      var p := PushedBy(s.mail, CallOf(policy, s, Finish(key, outcome, wait)), s.clock);
      var t := Finished(policy, s, key, outcome, wait);
      && (p.Some? <==> fate.Moved?) && (fate.Moved? ==> outcome.Failed?)
      && (p.Some? ==>
           && (p.value.0, p.value.1.id) == NextKey(s.mail, fate.alias)
           && p.value.1.envelope == MovedEnvelope(policy, e, outcome, wait))
      && key in t.jobs && t.jobs[key].fate == Some(fate)
  {
    DispatchShape(policy, s.mail, s.jobs[key].envelope, outcome, wait, s.clock);
    hide Dispatch, MovedEnvelope, Inner, OriginOf, CanFinish, Judged, Counted;
  }

  /** What finishing `key` writes down. */
  lemma FinishLogs(policy: Policy, s: State, key: Key, outcome: Outcome, wait: real)
    requires CanFinish(s, key)
    ensures var t, c, e := Finished(policy, s, key, outcome, wait), s.log.home[key], s.jobs[key].envelope;
      var fate := Dispatch(policy, s.mail, e, outcome, wait, s.clock).1;
      && t.jobs == s.jobs[key := Job(e, Some(fate))] && t.log.first == s.log.first
      && t.log.tally
           == s.log.tally[c := Counted(s.log.tally[c], FailsEarly(policy, e, outcome), outcome.Failed?, fate.Kept?)]
      && t.log.home == if fate.Moved? then s.log.home[NextKey(s.mail, fate.alias) := c] else s.log.home
  {
    hide Dispatch, Counted, FailsEarly, NextKey;
  }

  /** The delivery that `key` finishes, and its balance. */
  lemma FinishStarts(policy: Policy, s: State, key: Key, maxRetries: nat)
    requires Sound(s.mail) && Fitting(s.mail, s.jobs) && AllBalanced(s) && Recorded(s.jobs, s.log)
    requires WithinBudget(s.log, maxRetries) && CanFinish(s, key)
    ensures key.0 in s.mail && key.1 in s.mail[key.0].inFlight
    ensures var entry, c := s.mail[key.0].inFlight[key.1], s.log.home[key];
      && entry.id == key.1 && s.jobs[key].envelope == Delivered(s.mail[key.0], entry)
      && Balanced(s.log, key, entry.envelope, false)
      && c in s.log.tally && c in s.log.first && InBudget(s.log.tally[c], s.log.first[c].RetryCount(), maxRetries)
  {
    HeldByJob(s, key);
    hide Delivered, InBudget, Envelope.RetryCount;
    var entry := s.mail[key.0].inFlight[key.1];
    assert Balanced(s.log, (key.0, entry.id), entry.envelope, false) by { hide WithinBudget, Balanced; }
    hide AllBalanced, Held, Live;
  }

  /** What finishing `key` does to the balance of its own copy. */
  lemma FinishBalancesCopy(policy: Policy, s: State, key: Key, outcome: Outcome, wait: real, maxRetries: nat)
    requires Sound(s.mail) && Fitting(s.mail, s.jobs) && AllBalanced(s) && Recorded(s.jobs, s.log)
    requires WithinBudget(s.log, maxRetries) && RetriesUpTo(policy, maxRetries) && CanFinish(s, key)
    ensures var t, c := Finished(policy, s, key, outcome, wait), s.log.home[key];
      var p := PushedBy(s.mail, CallOf(policy, s, Finish(key, outcome, wait)), s.clock);
      && c in t.log.tally && c in t.log.first && InBudget(t.log.tally[c], t.log.first[c].RetryCount(), maxRetries)
      && key.0 in s.mail && key.1 in s.mail[key.0].inFlight
      && (KeptJob(t.jobs, key) ==> Balanced(t.log, key, s.mail[key.0].inFlight[key.1].envelope, true))
      && (p.Some? ==> Balanced(t.log, (p.value.0, p.value.1.id), p.value.1.envelope, false))
  {
    hide CallOf, PushedBy, Sound, Fitting, AllBalanced, Recorded, Delivered, Dispatch, FailsEarly, WithinBudget;
    var c, e := s.log.home[key], s.jobs[key].envelope;
    var fate := Dispatch(policy, s.mail, e, outcome, wait, s.clock).1;
    hide CanFinish;
    FinishStarts(policy, s, key, maxRetries);
    FinishLogs(policy, s, key, outcome, wait);
    FinishPushes(policy, s, key, outcome, wait);
    var entry := s.mail[key.0].inFlight[key.1];
    var t, arrived := s.log.tally[c], s.log.first[c].RetryCount();
    FinishBalances(policy, s.mail[key.0], entry, t, arrived, outcome, wait, fate.Kept?, maxRetries);
    hide Envelope.RetryCount, Finished, MovedEnvelope, Counted, InBudget, NextKey, RetriesUpTo;
  }

  lemma StepKeepsBalanced(policy: Policy, s: State, ev: Event, maxRetries: nat)
    requires Conserved(s) && AllBalanced(s) && WithinBudget(s.log, maxRetries) && RetriesUpTo(policy, maxRetries)
    ensures AllBalanced(Step(policy, s, ev))
  {
    var t, call := Step(policy, s, ev), CallOf(policy, s, ev);
    hide Step, CallOf, Agrees, Sound, Fitting, MailAfter, PushedBy, Held, Live, RetriesUpTo, WithinBudget, Recorded,
         Staffed, Placed, Balanced, KeptJob;
    StepMakesOneCall(policy, s, ev);
    forall a, x | a in t.mail && Held(t.mail[a], x) && (a, x.id) in Live(t.mail, t.jobs)
      ensures Balanced(t.log, (a, x.id), x.envelope, KeptJob(t.jobs, (a, x.id)))
    {
      HeldAfter(s.mail, t.mail, call, s.clock, a, x);
      if Held(s.mail[a], x) {
        PushedIsFresh(s.mail, call, s.clock, a, x);
        OldStaysBalanced(policy, s, ev, maxRetries, a, x);
      } else {
        PushedIsBalanced(policy, s, ev, maxRetries);
      }
    }
  }

  lemma OldStaysBalanced(policy: Policy, s: State, ev: Event, maxRetries: nat, a: string, x: Entry)
    requires Conserved(s) && AllBalanced(s) && WithinBudget(s.log, maxRetries) && RetriesUpTo(policy, maxRetries)
    requires a in s.mail && Held(s.mail[a], x) && PutKey(s.mail, CallOf(policy, s, ev), s.clock) != Some((a, x.id))
    requires (a, x.id) in Live(Step(policy, s, ev).mail, Step(policy, s, ev).jobs)
    ensures Balanced(Step(policy, s, ev).log, (a, x.id), x.envelope, KeptJob(Step(policy, s, ev).jobs, (a, x.id)))
  {
    var t, k := Step(policy, s, ev), (a, x.id);
    hide Live, CallOf, PutKey, RetriesUpTo, Staffed, Fitting, Consistent, InBudget, Finished, Deposited, Polled,
         WorkerSettled;
    LiveOnlyGains(policy, s, ev, k);
    assert Balanced(s.log, k, x.envelope, KeptJob(s.jobs, k));
    if ev.Finish? && ev.key == k && CanFinish(s, k) {
      HeldByJob(s, k);
      OnlyHeldUnderId(s.mail[a], x, x.id);
      FinishBalancesCopy(policy, s, k, ev.outcome, ev.wait, maxRetries);
      FinishLives(policy, s, k, ev.outcome, ev.wait);
      hide Held, Balanced, Placed, AllBalanced, CanFinish;
    } else {
      OtherStaysBalanced(policy, s, ev, k, x.envelope);
    }
  }

  lemma OtherStaysBalanced(policy: Policy, s: State, ev: Event, k: Key, q: Envelope)
    requires Conserved(s) && Balanced(s.log, k, q, KeptJob(s.jobs, k)) && k in Live(s.mail, s.jobs)
    requires PutKey(s.mail, CallOf(policy, s, ev), s.clock) != Some(k)
    requires k in Live(Step(policy, s, ev).mail, Step(policy, s, ev).jobs)
    requires !(ev.Finish? && ev.key == k && CanFinish(s, k))
    ensures Balanced(Step(policy, s, ev).log, k, q, KeptJob(Step(policy, s, ev).jobs, k))
  {
    hide Live, CallOf, PutKey, Staffed, Fitting, Sound, Step;
    StepKeepsTallies(policy, s, ev);
    StepAgrees(policy, s, ev);
    assert Carries(BookOf(Live(s.mail, s.jobs), s.log), k, {});
    if ev.Finish? && CanFinish(s, ev.key) {
      FinishLives(policy, s, ev.key, ev.outcome, ev.wait);
      assert Carries(BookOf(Live(s.mail, s.jobs), s.log), ev.key, {});
    }
    if ev.Finish? && ev.key == k {
      StuckFinish(policy, s, ev);
    } else {
      StepKeepsKept(policy, s, ev, k);
    }
    hide Placed, KeptJob, Finished, CanFinish;
  }

  lemma StuckFinish(policy: Policy, s: State, ev: Event)
    requires ev.Finish? && !CanFinish(s, ev.key)
    ensures Step(policy, s, ev) == s
  {
  }

  lemma PushedIsBalanced(policy: Policy, s: State, ev: Event, maxRetries: nat)
    requires Conserved(s) && AllBalanced(s) && WithinBudget(s.log, maxRetries) && RetriesUpTo(policy, maxRetries)
    ensures var p, t := PushedBy(s.mail, CallOf(policy, s, ev), s.clock), Step(policy, s, ev);
      p.Some? ==>
        var key := (p.value.0, p.value.1.id); Balanced(t.log, key, p.value.1.envelope, KeptJob(t.jobs, key))
  {
    hide Finished, Deposited, Polled, WorkerSettled, Sound, Fitting, Staffed, Recorded, Placed, RetriesUpTo, Live,
         AllBalanced, WithinBudget, Balanced, CanFinish;
    var p := PushedBy(s.mail, CallOf(policy, s, ev), s.clock);
    if p.Some? {
      PushedHasNoJob(policy, s, ev);
      PushersPush(policy, s, ev);
      hide CallOf, PushedBy;
      match ev
      case Deposit(alias, e) => DepositedIsBalanced(policy, s, alias, e);
      case Finish(key, outcome, wait) => FinishBalancesCopy(policy, s, key, outcome, wait, maxRetries);
      case Settle(key) => SettleBalances(policy, s, key);
      case _ =>
    }
  }

  /** Only three kinds of event add an entry. */
  lemma PushersPush(policy: Policy, s: State, ev: Event)
    requires PushedBy(s.mail, CallOf(policy, s, ev), s.clock).Some?
    ensures ev.Deposit? || (ev.Finish? && CanFinish(s, ev.key)) || ev.Settle?
  {
    hide DispatchCall, Redelivery;
  }

  lemma DepositedIsBalanced(policy: Policy, s: State, alias: string, e: Envelope)
    ensures var p := PushedBy(s.mail, CallOf(policy, s, Deposit(alias, e)), s.clock);
      p.Some? ==> Balanced(Deposited(s, alias, e).log, (p.value.0, p.value.1.id), p.value.1.envelope, false)
  {
    if alias in s.mail && !s.mail[alias].closing && !Has(e, SentToFailureTransportStamp) {
      DepositBalances(s, alias, e);
    }
    hide Balanced, Deposited;
  }

  lemma PushedHasNoJob(policy: Policy, s: State, ev: Event)
    requires Sound(s.mail) && Fitting(s.mail, s.jobs)
    ensures var p := PushedBy(s.mail, CallOf(policy, s, ev), s.clock);
      p.Some? ==> (p.value.0, p.value.1.id) !in Step(policy, s, ev).jobs
  {
    var p := PushedBy(s.mail, CallOf(policy, s, ev), s.clock);
    if p.Some? {
      PushersPush(policy, s, ev);
      hide CallOf, Step, Live;
      PushLives(s.mail, s.jobs, p.value.0, p.value.1.envelope, s.clock);
      hide Sound, Fitting;
      if (p.value.0, p.value.1.id) in Step(policy, s, ev).jobs {
        NewJobsComeFromPolls(policy, s, ev, (p.value.0, p.value.1.id));
      }
    }
  }

  lemma StepKeepsBudget(policy: Policy, s: State, ev: Event, maxRetries: nat)
    requires Conserved(s) && AllBalanced(s) && WithinBudget(s.log, maxRetries) && RetriesUpTo(policy, maxRetries)
    ensures WithinBudget(Step(policy, s, ev).log, maxRetries)
  {
    hide Sound, Fitting, Staffed, Placed, Live, AllBalanced, RetriesUpTo, CallOf, PutKey, Finished, Deposited, Polled,
         WorkerSettled, Balanced;
    var t := Step(policy, s, ev);
    StepKeepsTallies(policy, s, ev);
    StepAgrees(policy, s, ev);
    if ev.Finish? && CanFinish(s, ev.key) {
      FinishBalancesCopy(policy, s, ev.key, ev.outcome, ev.wait, maxRetries);
    }
    hide Step, CanFinish;
    forall c: nat | c < t.log.copies && c in t.log.tally && c in t.log.first
      ensures InBudget(t.log.tally[c], t.log.first[c].RetryCount(), maxRetries)
    {
      if c < s.log.copies && JudgedCopy(s, ev) != Some(c) {
        assert InBudget(s.log.tally[c], s.log.first[c].RetryCount(), maxRetries);
      }
    }
  }

  lemma {:induction false} RunKeepsBudget(policy: Policy, s: State, events: seq<Event>, maxRetries: nat)
    requires Conserved(s) && AllBalanced(s) && WithinBudget(s.log, maxRetries) && RetriesUpTo(policy, maxRetries)
    ensures WithinBudget(Run(policy, s, events).log, maxRetries)
    decreases |events|
  {
    hide Conserved, AllBalanced, WithinBudget, RetriesUpTo, Step;
    if events != [] {
      StepConserves(policy, s, events[0]);
      StepKeepsBalanced(policy, s, events[0], maxRetries);
      StepKeepsBudget(policy, s, events[0], maxRetries);
      RunKeepsBudget(policy, Step(policy, s, events[0]), events[1..], maxRetries);
    }
  }

  /** Handler failures of a copy so far. */
  function Failures(t: Tally): nat { t.early + t.refused + t.sunk }

  /**
   * Bounded retries: in every run every message fails at most `maxRetries` times before a
   * failure past the budget, so at most `maxRetries + 1` times, plus one for every refused
   * dead-lettering, by the time one goes through; and exactly `maxRetries + 1` times when it
   * arrived fresh and nothing but its handler ever failed.
   */
  lemma RetriesAreBounded(policy: Policy, start: State, events: seq<Event>, maxRetries: nat, c: nat)
    requires Initial(start) && RetriesUpTo(policy, maxRetries) && c < WorkerRuns.Run(policy, start, events).log.copies
    ensures var log := WorkerRuns.Run(policy, start, events).log;
      && c in log.tally && c in log.first
      && var t := log.tally[c];
         && t.early <= maxRetries
         && (t.sunk <= 1 ==> Failures(t) <= maxRetries + 1 + t.refused)
         && (t.sunk == 1 && t.refused == 0 && t.thrown == 0 && log.first[c].RetryCount() == 0 ==>
              Failures(t) == maxRetries + 1)
  {
    InitialConserved(start);
    RunKeepsBudget(policy, start, events, maxRetries);
    RunConserves(policy, start, events);
    var log := Run(policy, start, events).log;
    hide Run, Initial, Sound, Fitting, Staffed, Placed, Live;
    assert InBudget(log.tally[c], log.first[c].RetryCount(), maxRetries);
  }

  // ---- Where the bound ends ----------------------------------------------------------

  predicate Accepts(policy: Policy, mail: World) {
    policy.failure.None? || (policy.failure.value in mail && !mail[policy.failure.value].closing)
  }

  /**
   * A handler failure past the budget leaves the message to be rejected and handled again
   * exactly when a failure transport is configured and does not accept it.
   */
  lemma DeadLetterGoesThroughIff(policy: Policy, s: State, key: Key, outcome: Outcome, wait: real)
    requires Sound(s.mail) && Fitting(s.mail, s.jobs) && CanFinish(s, key) && outcome.Failed?
    requires !FailsEarly(policy, s.jobs[key].envelope, outcome)
    ensures var t, c := Finished(policy, s, key, outcome, wait), s.log.home[key];
      && (t.jobs[key].fate != Some(Kept) <==> Accepts(policy, s.mail))
      && t.log.tally[c].refused == s.log.tally[c].refused + (if Accepts(policy, s.mail) then 0 else 1)
      && t.log.tally[c].sunk == s.log.tally[c].sunk + (if Accepts(policy, s.mail) then 1 else 0)
  {
    HeldByJob(s, key);
    InnerIsReceived(policy, s.mail[key.0], s.mail[key.0].inFlight[key.1]);
    hide Sound, Fitting, Delivered, Inner, LastOf, DeadLettered, Retried, Sent, Held;
  }

  lemma InnerIsReceived(policy: Policy, m: Mailbox, entry: Entry)
    ensures Inner(policy, Delivered(m, entry)).Last(ReceivedStamp).Some?
  {
    hide LastOf, Drop;
    LastOfWith(entry.envelope, NewReceived(m.name), ReceivedStamp);
    LastOfWith(entry.envelope.With([NewReceived(m.name)]), NewMessageId(entry.id), ReceivedStamp);
    LastOfWith(Delivered(m, entry), NewBusName(policy.bus), ReceivedStamp);
    var named := AddBusName(Delivered(m, entry), policy.bus);
    match named.Last(SentToFailureTransportStamp)
    case None =>
    case Some(x) =>
      LastOfWith(named.WithoutAll(ReceivedStamp), NewReceived(TextOf(x, "originalReceiverName")), ReceivedStamp);
  }
}
