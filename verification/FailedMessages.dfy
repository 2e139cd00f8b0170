/** The failed-message manager: re-enqueue or discard what the failure transport `f` holds. */
module FailedMessages {
  import opened Common
  import opened Envelopes
  import opened InMemory
  import opened Pipeline
  import opened WorkerRuns
  import opened WorkerHistory

  datatype ManagerError = NoOrigin | Refused(error: SendError) | NoId

  /** The clean envelope that goes back to the origin. */
  function Resendable(e: Envelope): Envelope {
    e.WithoutAll(RedeliveryStamp).WithoutAll(ErrorDetailsStamp).WithoutAll(SentToFailureTransportStamp)
     .WithoutAll(ReceivedStamp).WithoutAll(TransportMessageIdStamp)
  }

  function ResendToOrigin(mail: World, e: Envelope, now: real): (r: Result<World, ManagerError>)
    ensures r.Ok? ==> r.value.Keys == mail.Keys
  {
    match e.Last(SentToFailureTransportStamp)
    case None => Err(NoOrigin)
    case Some(s) =>
      match SendVia(mail, TextOf(s, "originalReceiverName"), Resendable(e), now)
      case Err(error) => Err(Refused(error))
      case Ok(sent) => Ok(sent)
  }

  /** Re-send, then remove from the failure transport. */
  function RetryEnvelope(mail: World, f: string, e: Envelope, now: real): (r: Result<World, ManagerError>)
    requires f in mail
    ensures r.Ok? ==> r.value.Keys == mail.Keys
  {
    match ResendToOrigin(mail, e, now)
    case Err(error) => Err(error)
    case Ok(sent) =>
      match e.MessageId()
      case None => Err(NoId)
      case Some(id) => Ok(sent[f := Acked(sent[f], id)])
  }

  function Listed(entry: Entry): Envelope { entry.envelope.With([NewMessageId(entry.id)]) }

  /** `retry(id)`: false when the id is not in the queue. */
  function Retry(mail: World, f: string, id: string, now: real): Result<(World, bool), ManagerError>
    requires f in mail
  {
    match Find(mail[f].queue, id)
    case None => Ok((mail, false))
    case Some(entry) =>
      match RetryEnvelope(mail, f, Listed(entry), now)
      case Err(error) => Err(error)
      case Ok(after) => Ok((after, true))
  }

  /**
   * A retry finds nothing exactly when the failure transport has no entry of that id, and then changes
   * nothing; it fails exactly when the entry names no origin, or its origin is missing or closing.
   */
  lemma RetryFailsIff(mail: World, f: string, id: string, now: real)
    requires f in mail
    ensures var r, found := Retry(mail, f, id, now), Find(mail[f].queue, id);
      && (found.None? <==> forall x :: x in mail[f].queue ==> x.id != id)
      && (found.None? <==> r.Ok? && !r.value.1) && (found.None? ==> r.value.0 == mail)
      && (found.Some? ==>
            match found.value.envelope.Last(SentToFailureTransportStamp)
            case None => r == Err(NoOrigin)
            case Some(stamp) =>
              var origin := TextOf(stamp, "originalReceiverName");
              && (r == Err(Refused(NotFound)) <==> origin !in mail)
              && (r == Err(Refused(Closing)) <==> origin in mail && mail[origin].closing)
              && (r.Ok? <==> origin in mail && !mail[origin].closing))
  {
    var found := Find(mail[f].queue, id);
    if found.Some? {
      ListedFacts(found.value);
      hide Resendable, Listed, LastOf, Acked, Sent;
    } else {
      forall x | x in mail[f].queue ensures x.id != id {
        var i :| 0 <= i < |mail[f].queue| && mail[f].queue[i] == x;
      }
    }
  }

  lemma ListedFacts(entry: Entry)
    ensures Listed(entry).MessageId() == Some(entry.id)
    ensures Listed(entry).Last(SentToFailureTransportStamp) == entry.envelope.Last(SentToFailureTransportStamp)
  {
    LastOfWith(entry.envelope, NewMessageId(entry.id), TransportMessageIdStamp);
    LastOfWith(entry.envelope, NewMessageId(entry.id), SentToFailureTransportStamp);
  }

  const RESET: set<Class> := {
    RedeliveryStamp, ErrorDetailsStamp, SentToFailureTransportStamp, ReceivedStamp, TransportMessageIdStamp}

  lemma ResendableDropsReset(e: Envelope)
    ensures Resendable(e) == Envelope(e.message, Drop(e.stamps, RESET))
  {
    var a := e.WithoutAll(RedeliveryStamp);
    var b := a.WithoutAll(ErrorDetailsStamp);
    var c := b.WithoutAll(SentToFailureTransportStamp);
    DropDrop(e.stamps, {RedeliveryStamp}, {ErrorDetailsStamp});
    DropDrop(e.stamps, {RedeliveryStamp} + {ErrorDetailsStamp}, {SentToFailureTransportStamp});
    DropDrop(e.stamps, {RedeliveryStamp} + {ErrorDetailsStamp} + {SentToFailureTransportStamp}, {ReceivedStamp});
    DropDrop(e.stamps, {RedeliveryStamp} + {ErrorDetailsStamp} + {SentToFailureTransportStamp} + {ReceivedStamp},
             {TransportMessageIdStamp});
    assert RESET == {RedeliveryStamp} + {ErrorDetailsStamp} + {SentToFailureTransportStamp} + {ReceivedStamp}
                    + {TransportMessageIdStamp};
  }

  /** Without a delay and with a bus name, what is re-sent is the envelope with its bookkeeping undone. */
  lemma ResendableIsUndone(e: Envelope, bus: string)
    requires !Has(e, DelayStamp) && Has(e, BusNameStamp)
    ensures Resendable(e) == Undone(e, bus)
  {
    ResendableDropsReset(e);
    DelayIsAllThatDiffers(e.stamps);
    DropKeepsLast(e.stamps, BOOKKEEPING, BusNameStamp);
    hide Drop, LastOf, Resendable;
  }

  lemma DelayIsAllThatDiffers(stamps: seq<Stamp>)
    requires LastOf(stamps, DelayStamp).None?
    ensures Drop(stamps, RESET) == Drop(stamps, BOOKKEEPING)
  {
    DropDrop(stamps, {DelayStamp}, RESET);
    assert {DelayStamp} + RESET == BOOKKEEPING;
    LastIsMember(stamps, DelayStamp);
    DropNothing(stamps, {DelayStamp});
    hide Drop, LastOf;
  }

  /**
   * Dead-letter undo: whatever retries, rejects and dead-letterings a message went through,
   * once it sits on a failure transport it did not start on, `retry` either leaves everything
   * as it is and reports why the origin refused, or puts at the end of the origin's queue the
   * envelope first received there with exactly the bookkeeping stamps removed, and takes the
   * message off the failure transport.
   */
  lemma DeadLetterUndo(policy: Policy, start: State, events: seq<Event>, f: string, entry: Entry)
    requires Initial(start)
    requires var s := WorkerRuns.Run(policy, start, events);
      f in s.mail && entry in s.mail[f].queue
    ensures var s := WorkerRuns.Run(policy, start, events);
      var log, k := s.log, (f, entry.id);
      && k in log.home && log.home[k] in log.origin && log.home[k] in log.first
      && var origin, first := log.origin[log.home[k]], log.first[log.home[k]];
         origin != f ==>
           var result := Retry(s.mail, f, entry.id, s.clock);
           var clean := Undone(first, policy.bus);
           if origin !in s.mail then result == Err(Refused(NotFound))
           else if s.mail[origin].closing then result == Err(Refused(Closing))
           else
             result == Ok((s.mail[origin := Sent(s.mail[origin], clean, s.clock)][f := Acked(s.mail[f], entry.id)],
                           true))
  {
    InitialConserved(start);
    RunKeepsFaithful(policy, start, events);
    var s := Run(policy, start, events);
    hide Run, Initial, Placed, Fitting, Staffed, Recorded;
    assert Held(s.mail[f], entry);
    assert Faithful(policy, s.log, (f, entry.id), entry.envelope);
    FindsEntry(s.mail[f], entry);
    hide Conserved, AllFaithful, Held;
    if s.log.origin[s.log.home[(f, entry.id)]] != f {
      RetryOfFaithful(policy, s, f, entry);
    }
  }

  /** The undone envelope has no delay and names a bus. */
  lemma UndoneStamps(e: Envelope, bus: string)
    ensures Undone(e, bus).Last(DelayStamp) == None && Undone(e, bus).Last(BusNameStamp).Some?
  {
    DropKeepsLast(e.stamps, BOOKKEEPING, DelayStamp);
    var kept := Envelope(e.message, Drop(e.stamps, BOOKKEEPING));
    LastOfWith(kept, NewBusName(bus), DelayStamp);
    LastOfWith(kept, NewBusName(bus), BusNameStamp);
    hide LastOf, Drop;
  }

  /**
   * On any transport of any reachable state, what `retry` would re-send is the envelope first
   * received with exactly its bookkeeping undone if and only if the entry carries no delay and
   * names its bus. On the failure transport dead-lettering sees to both; an entry that waits for a
   * retry on its own origin carries a delay, which `retry` does not remove.
   */
  lemma UndoIsExactIff(policy: Policy, start: State, events: seq<Event>, f: string, entry: Entry)
    requires Initial(start)
    requires var s := WorkerRuns.Run(policy, start, events);
      f in s.mail && entry in s.mail[f].queue
    ensures var log, k := WorkerRuns.Run(policy, start, events).log, (f, entry.id);
      && k in log.home && log.home[k] in log.first
      && (Resendable(Listed(entry)) == Undone(log.first[log.home[k]], policy.bus) <==>
            !Has(entry.envelope, DelayStamp) && Has(entry.envelope, BusNameStamp))
  {
    InitialConserved(start);
    RunKeepsFaithful(policy, start, events);
    var s := Run(policy, start, events);
    hide Run, Initial, Placed, Fitting, Staffed, Recorded;
    assert Held(s.mail[f], entry);
    assert Faithful(policy, s.log, (f, entry.id), entry.envelope);
    hide Conserved, AllFaithful, Held;
    ExactIff(entry, s.log.first[s.log.home[(f, entry.id)]], policy.bus);
    hide Faithful;
  }

  lemma ExactIff(entry: Entry, first: Envelope, bus: string)
    requires Undone(entry.envelope, bus) == Undone(first, bus)
    ensures Resendable(Listed(entry)) == Undone(first, bus) <==>
      !Has(entry.envelope, DelayStamp) && Has(entry.envelope, BusNameStamp)
  {
    var e := Listed(entry);
    LastOfWith(entry.envelope, NewMessageId(entry.id), DelayStamp);
    LastOfWith(entry.envelope, NewMessageId(entry.id), BusNameStamp);
    UndoneOfWith(entry.envelope, [NewMessageId(entry.id)], bus);
    UndoneStamps(first, bus);
    ResendableDropsReset(e);
    DropKeepsLast(e.stamps, RESET, DelayStamp);
    DropKeepsLast(e.stamps, RESET, BusNameStamp);
    hide Undone, LastOf, Drop, Resendable;
    if !Has(e, DelayStamp) && Has(e, BusNameStamp) {
      ResendableIsUndone(e, bus);
    }
  }

  lemma FindsEntry(m: Mailbox, entry: Entry)
    requires Consistent(m) && entry in m.queue
    ensures Find(m.queue, entry.id) == Some(entry)
  {
    var i :| 0 <= i < |m.queue| && m.queue[i] == entry;
    var found := Find(m.queue, entry.id);
    var j :| 0 <= j < |m.queue| && m.queue[j] == found.value;
  }

  lemma RetryOfFaithful(policy: Policy, s: State, f: string, entry: Entry)
    requires f in s.mail && Find(s.mail[f].queue, entry.id) == Some(entry)
    requires Faithful(policy, s.log, (f, entry.id), entry.envelope) && s.log.origin[s.log.home[(f, entry.id)]] != f
    ensures var origin, first := s.log.origin[s.log.home[(f, entry.id)]], s.log.first[s.log.home[(f, entry.id)]];
      var result := Retry(s.mail, f, entry.id, s.clock);
      var clean := Undone(first, policy.bus);
      if origin !in s.mail then result == Err(Refused(NotFound))
      else if s.mail[origin].closing then result == Err(Refused(Closing))
      else result == Ok((s.mail[origin := Sent(s.mail[origin], clean, s.clock)][f := Acked(s.mail[f], entry.id)], true))
  {
    var e := Listed(entry);
    ListedFacts(entry);
    LastOfWith(entry.envelope, NewMessageId(entry.id), DelayStamp);
    LastOfWith(entry.envelope, NewMessageId(entry.id), BusNameStamp);
    LastIsMember(entry.envelope.stamps, SentToFailureTransportStamp);
    UndoneOfWith(entry.envelope, [NewMessageId(entry.id)], policy.bus);
    hide Undone, LastOf, Drop;
    ResendableIsUndone(e, policy.bus);
    hide Resendable, Acked, Sent;
  }

  // ---- Retrying everything -----------------------------------------------------------

  /** How far retrying has got: the transports, the number retried, and what stopped it. */
  type Progress = (World, nat, Option<ManagerError>)

  function RetryNext(p: Progress, f: string, e: Envelope, now: real): (r: Progress)
    requires f in p.0
    ensures f in r.0
  {
    if p.2.Some? then p
    else match RetryEnvelope(p.0, f, e, now)
      case Err(error) => (p.0, p.1, Some(error))
      case Ok(after) => (after, p.1 + 1, None)
  }

  /** Retry each in turn; the first failure stops the rest. */
  function RetryEach(mail: World, f: string, envelopes: seq<Envelope>, now: real): (r: Progress)
    requires f in mail
    ensures f in r.0
  {
    if envelopes == [] then (mail, 0, None)
    else RetryNext(RetryEach(mail, f, envelopes[..|envelopes| - 1], now), f, envelopes[|envelopes| - 1], now)
  }

  lemma RetryEachUnfolds(mail: World, f: string, envelopes: seq<Envelope>, i: nat, now: real)
    requires f in mail && i < |envelopes|
    ensures RetryEach(mail, f, envelopes[..i + 1], now)
         == RetryNext(RetryEach(mail, f, envelopes[..i], now), f, envelopes[i], now)
  {
    assert envelopes[..i + 1][..i] == envelopes[..i];
  }

  lemma {:induction false} RetryEachStops(mail: World, f: string, envelopes: seq<Envelope>, k: nat, now: real)
    requires f in mail && k <= |envelopes| && RetryEach(mail, f, envelopes[..k], now).2.Some?
    ensures RetryEach(mail, f, envelopes, now) == RetryEach(mail, f, envelopes[..k], now)
    decreases |envelopes|
  {
    if k < |envelopes| {
      assert envelopes[..|envelopes| - 1][..k] == envelopes[..k];
      RetryEachStops(mail, f, envelopes[..|envelopes| - 1], k, now);
    } else {
      assert envelopes[..k] == envelopes;
    }
  }

  function ListAll(queue: seq<Entry>): (r: seq<Envelope>)
    ensures |r| == |queue|
    ensures forall i :: 0 <= i < |queue| ==> r[i] == Listed(queue[i])
  {
    seq(|queue|, i requires 0 <= i < |queue| => Listed(queue[i]))
  }

  /** The listing, collected before anything is retried. */
  method Collect(queue: seq<Entry>) returns (envelopes: seq<Envelope>)
    ensures envelopes == ListAll(queue)
  {
    hide Listed;
    envelopes := [];
    for i := 0 to |queue|
      invariant |envelopes| == i
      invariant forall j :: 0 <= j < i ==> envelopes[j] == Listed(queue[j])
    {
      envelopes := envelopes + [Listed(queue[i])];
    }
  }

  /** `retryAll()`: list first, then retry in that order. */
  method RetryAll(mail: World, f: string, now: real) returns (after: World, retried: nat, error: Option<ManagerError>)
    requires f in mail
    ensures (after, retried, error) == RetryEach(mail, f, ListAll(mail[f].queue), now)
  {
    var envelopes := Collect(mail[f].queue);
    hide RetryEnvelope, RetryEach, RetryNext, ListAll, Listed;
    var p: Progress := (mail, 0, None);
    RetryEachStarts(mail, f, now);
    assert envelopes[..0] == [];
    for i := 0 to |envelopes|
      invariant p == RetryEach(mail, f, envelopes[..i], now) && p.2.None?
    {
      RetryEachUnfolds(mail, f, envelopes, i, now);
      p := RetryNext(p, f, envelopes[i], now);
      if p.2.Some? {
        RetryEachStops(mail, f, envelopes, i + 1, now);
        return p.0, p.1, p.2;
      }
    }
    assert envelopes[..|envelopes|] == envelopes;
    after, retried, error := p.0, p.1, p.2;
  }

  lemma RetryEachStarts(mail: World, f: string, now: real)
    requires f in mail
    ensures RetryEach(mail, f, [], now) == (mail, 0, None)
  {
  }

  /** The transport a dead letter would be retried on. */
  predicate ComesFrom(e: Envelope, alias: string) {
    e.Last(SentToFailureTransportStamp).Some?
    && TextOf(e.Last(SentToFailureTransportStamp).value, "originalReceiverName") == alias
  }

  /** What retrying the first `n` messages of `queue` appends to `f` itself: those `f` is the origin of. */
  function OwnCopies(queue: seq<Entry>, f: string, n: nat, nextId: nat, now: real): seq<Entry>
    requires n <= |queue|
  {
    if n == 0 then []
    else
      var before, e := OwnCopies(queue, f, n - 1, nextId, now), queue[n - 1].envelope;
      if !ComesFrom(e, f) then before
      else
        var copy := Resendable(Listed(queue[n - 1]));
        before + [Entry(Decimal(nextId + |before|), copy, now + copy.DelayMs())]
  }

  lemma {:induction false} OwnCopiesAreNew(queue: seq<Entry>, f: string, n: nat, nextId: nat, now: real, id: string)
    requires n <= |queue| && id in Issued(nextId)
    ensures forall x :: x in OwnCopies(queue, f, n, nextId, now) ==> x.id != id
  {
    hide Resendable, Listed, Decimal, ComesFrom;
    if n > 0 {
      OwnCopiesAreNew(queue, f, n - 1, nextId, now, id);
      var k := nextId + |OwnCopies(queue, f, n - 1, nextId, now)|;
      IssuedStays(nextId, k);
      NextIdIsFresh(k);
    }
  }

  lemma IssuedStays(m: nat, n: nat)
    requires m <= n
    ensures Issued(m) <= Issued(n)
  {
    forall id | id in Issued(m) ensures id in Issued(n) {
      var k: nat :| k < m && Decimal(k) == id;
    }
  }

  /** Removing the first entry's id takes that entry only, when no other has it. */
  lemma WithoutFirst(x: Entry, rest: seq<Entry>)
    requires forall y :: y in rest ==> y.id != x.id
    ensures Without([x] + rest, x.id) == rest
  {
    assert ([x] + rest)[1..] == rest;
    WithoutAbsent(rest, x.id);
  }

  /**
   * After `k` of the messages `m` held were tried: the retried ones are off the queue, oldest first,
   * the others left, and behind them the copies of those whose origin is this very transport.
   */
  ghost predicate RemovedPrefix(p: Progress, f: string, m: Mailbox, k: nat, now: real) {
    && f in p.0 && p.1 <= k <= |m.queue| && (p.2.None? <==> p.1 == k)
    && var copies := OwnCopies(m.queue, f, p.1, m.nextId, now);
       p.0[f].queue == m.queue[p.1..] + copies && p.0[f].nextId == m.nextId + |copies|
  }

  lemma NextRemoves(p: Progress, f: string, m: Mailbox, k: nat, now: real)
    requires Consistent(m) && k < |m.queue| && RemovedPrefix(p, f, m, k, now)
    ensures RemovedPrefix(RetryNext(p, f, Listed(m.queue[k]), now), f, m, k + 1, now)
  {
    hide RetryEnvelope, Consistent, Listed, OwnCopies;
    if p.2.None? {
      RetryTakesFirst(p.0, f, m, k, now);
    }
  }

  /**
   * However far `retryAll` gets, the failure queue has lost exactly the messages it reports as
   * retried, oldest first, and kept the rest, followed only by the copies of retried messages whose
   * origin it is itself; it loses all of them exactly when there is no error.
   */
  lemma {:induction false} RetryAllRemovesPrefix(mail: World, f: string, k: nat, now: real)
    requires f in mail && Consistent(mail[f]) && k <= |mail[f].queue|
    ensures RemovedPrefix(RetryEach(mail, f, ListAll(mail[f].queue)[..k], now), f, mail[f], k, now)
  {
    hide *;
    if k == 0 {
      RetryNoneRemovesNone(mail, f, now);
    } else {
      RetryAllRemovesPrefix(mail, f, k - 1, now);
      RetryAllUnfolds(mail, f, k - 1, now);
      NextRemoves(RetryEach(mail, f, ListAll(mail[f].queue)[..k - 1], now), f, mail[f], k - 1, now);
    }
  }

  lemma RetryNoneRemovesNone(mail: World, f: string, now: real)
    requires f in mail
    ensures RemovedPrefix(RetryEach(mail, f, ListAll(mail[f].queue)[..0], now), f, mail[f], 0, now)
  {
    var queue, all := mail[f].queue, ListAll(mail[f].queue);
    assert all[..0] == [];
    assert queue[0..] + [] == queue;
  }

  lemma RetryAllUnfolds(mail: World, f: string, i: nat, now: real)
    requires f in mail && i < |mail[f].queue|
    ensures var all := ListAll(mail[f].queue);
      RetryEach(mail, f, all[..i + 1], now)
        == RetryNext(RetryEach(mail, f, all[..i], now), f, Listed(mail[f].queue[i]), now)
  {
    RetryEachUnfolds(mail, f, ListAll(mail[f].queue), i, now);
    hide RetryEach, RetryNext, Listed;
  }

  /** The queue between the re-send and the ack: the retried entry first, its copy, if any, last. */
  lemma QueueInBetween(queue: seq<Entry>, f: string, i: nat, nextId: nat, now: real)
    requires i < |queue|
    ensures var own, copies := OwnCopies(queue, f, i, nextId, now), OwnCopies(queue, f, i + 1, nextId, now);
      var copy := Resendable(Listed(queue[i]));
      if ComesFrom(queue[i].envelope, f) then
        && |copies| == |own| + 1
        && queue[i..] + own + [Entry(Decimal(nextId + |own|), copy, now + copy.DelayMs())]
             == [queue[i]] + (queue[i + 1..] + copies)
      else copies == own && queue[i..] + own == [queue[i]] + (queue[i + 1..] + copies)
  {
    hide Resendable, Listed, ComesFrom, Decimal, Envelope.DelayMs;
    assert queue[i..] == [queue[i]] + queue[i + 1..];
  }

  lemma RetryTakesFirst(mail: World, f: string, m: Mailbox, i: nat, now: real)
    requires f in mail && i < |m.queue| && Consistent(m)
    requires var copies := OwnCopies(m.queue, f, i, m.nextId, now);
      mail[f].queue == m.queue[i..] + copies && mail[f].nextId == m.nextId + |copies|
    ensures RetryEnvelope(mail, f, Listed(m.queue[i]), now).Ok? ==>
      var copies := OwnCopies(m.queue, f, i + 1, m.nextId, now);
      var after := RetryEnvelope(mail, f, Listed(m.queue[i]), now).value;
      && after[f].queue == m.queue[i + 1..] + copies && after[f].nextId == m.nextId + |copies|
  {
    hide Consistent, Without, Listed, Resendable, Decimal, OwnCopies, RetryEnvelope;
    var x, copies := m.queue[i], OwnCopies(m.queue, f, i + 1, m.nextId, now);
    ListedFacts(x);
    ComesFromListed(x, f);
    RestIsOthers(m, f, i, now);
    WithoutFirst(x, m.queue[i + 1..] + copies);
    QueueInBetween(m.queue, f, i, m.nextId, now);
    hide ComesFrom, Envelope.DelayMs, Envelope.MessageId;
    SentQueue(mail, f, Listed(x), now);
  }

  lemma ComesFromListed(x: Entry, f: string)
    ensures ComesFrom(Listed(x), f) <==> ComesFrom(x.envelope, f)
  {
    ListedFacts(x);
    hide Listed;
  }

  /** No later entry, and no copy, has the first one's id. */
  lemma RestIsOthers(m: Mailbox, f: string, i: nat, now: real)
    requires Consistent(m) && i < |m.queue|
    ensures forall y :: y in m.queue[i + 1..] + OwnCopies(m.queue, f, i + 1, m.nextId, now) ==> y.id != m.queue[i].id
  {
    OwnCopiesAreNew(m.queue, f, i + 1, m.nextId, now, m.queue[i].id);
    forall y | y in m.queue[i + 1..] ensures y.id != m.queue[i].id {
      var j :| 0 <= j < |m.queue[i + 1..]| && m.queue[i + 1..][j] == y;
      assert m.queue[i + 1 + j] == y;
    }
    hide OwnCopies;
  }

  /** What a retry's re-send does to the failure transport itself, and what its ack then does. */
  lemma SentQueue(mail: World, f: string, e: Envelope, now: real)
    requires f in mail
    ensures RetryEnvelope(mail, f, e, now).Ok? ==>
      && e.MessageId().Some?
      && var copy := Resendable(e);
         var own := Entry(Decimal(mail[f].nextId), copy, now + copy.DelayMs());
         var sent := if ComesFrom(e, f) then mail[f].queue + [own]
                     else mail[f].queue;
         var after := RetryEnvelope(mail, f, e, now).value;
         && f in after && after[f].queue == Without(sent, e.MessageId().value)
         && after[f].nextId == mail[f].nextId + if ComesFrom(e, f) then 1 else 0
  {
    hide Resendable, Without, Decimal, Envelope.DelayMs;
  }

  // ---- Beside running workers --------------------------------------------------------

  /** A retry that found `x` earlier and now re-sends and acks, whatever happened to the transports meanwhile. */
  lemma LateRetry(mail: World, f: string, x: Entry, now: real, later: real)
    requires f in mail && x.envelope.Last(SentToFailureTransportStamp).Some?
    requires var origin := TextOf(x.envelope.Last(SentToFailureTransportStamp).value, "originalReceiverName");
      origin in mail && !mail[origin].closing && origin != f
    ensures var origin := TextOf(x.envelope.Last(SentToFailureTransportStamp).value, "originalReceiverName");
      var r := RetryEnvelope(mail, f, Listed(x), now);
      && r.Ok? && f in r.value && origin in r.value
      && r.value[origin] == Sent(mail[origin], Resendable(Listed(x)), now)
      && x.id !in r.value[f].inFlight && (forall y :: y in r.value[f].queue ==> y.id != x.id)
      && Acked(r.value[f], x.id) == r.value[f]
      && (forall e :: Rejected(r.value[f], e, x.id, later) == r.value[f])
  {
    ListedFacts(x);
    hide Listed, Resendable, LastOf, Sent;
    var r := RetryEnvelope(mail, f, Listed(x), now);
    assert r.value[f] == Acked(mail[f], x.id);
    WithoutMembers(mail[f].queue, x.id);
    AckSettlesOnce(mail[f], x.envelope, x.id, later);
  }

  /**
   * When a worker takes the message between the find and the re-send it exists twice: in the worker's
   * hands, and as a new entry of its origin. No settle of the worker's brings it back to the failure
   * transport, so it is never lost, and not a third time there.
   */
  lemma RetryBesideWorker(mail: World, f: string, i: nat, now: real)
    requires f in mail && Consistent(mail[f]) && FirstDue(mail[f].queue, now) == Some(i)
    requires Has(mail[f].queue[i].envelope, SentToFailureTransportStamp)
    requires var stamp := mail[f].queue[i].envelope.Last(SentToFailureTransportStamp).value;
      var origin := TextOf(stamp, "originalReceiverName"); origin in mail && !mail[origin].closing && origin != f
    ensures var x := mail[f].queue[i];
      var origin := TextOf(x.envelope.Last(SentToFailureTransportStamp).value, "originalReceiverName");
      var delivered, polled := Delivered(mail[f], x), mail[f := Taken(mail[f], now)];
      && Find(mail[f].queue, x.id) == Some(x) && x.id in polled[f].inFlight
      && var r := RetryEnvelope(polled, f, Listed(x), now);
         && r.Ok? && f in r.value && origin in r.value && |r.value[origin].queue| == |mail[origin].queue| + 1
         && r.value[origin].queue[|mail[origin].queue|].envelope.message == delivered.message
         && Acked(r.value[f], x.id) == r.value[f] && Rejected(r.value[f], delivered, x.id, now) == r.value[f]
  {
    var m, x := mail[f], mail[f].queue[i];
    FindsEntry(m, x);
    assert x.id in Taken(m, now).inFlight;
    hide Consistent, LastOf, Drop, FirstDue, Taken, Find;
    LateRetry(mail[f := Taken(m, now)], f, x, now, now);
    hide Acked, Rejected, RetryEnvelope;
  }
}
