/**
 * What happens to a received envelope between the worker and the handler, and what the
 * retry policy does when the handler fails: bus name, failed-message processing, send
 * (a pass-through for received messages), retry, handle.
 */
module Pipeline {
  import opened Common
  import opened Envelopes
  import opened InMemory

  /** The configured transports, by alias. */
  type World = map<string, Mailbox>

  datatype Policy = Policy(bus: string, failure: Option<string>, retryable: Envelope -> bool)

  /** How the handlers of one dispatch end; `Infrastructure` is any error that is not a handler's. */
  datatype Outcome = Handled | Failed(errorClass: string, errorText: string) | Infrastructure

  /**
   * What a dispatch did with the delivery. Only `Kept` is a throw: the worker rejects it;
   * in the other three cases the worker acks.
   */
  datatype Fate = Done | Moved(alias: string) | Discarded | Kept

  function SendVia(mail: World, alias: string, e: Envelope, now: real): (r: Result<World, SendError>)
    ensures r.Ok? ==> r.value.Keys == mail.Keys
  {
    if alias !in mail then Err(NotFound)
    else if mail[alias].closing then Err(Closing)
    else Ok(mail[alias := Sent(mail[alias], e, now)])
  }

  function AddBusName(e: Envelope, bus: string): Envelope {
    if e.Last(BusNameStamp).None? then e.With([NewBusName(bus)]) else e
  }

  /** A message back from the failure transport is made to look received from its origin. */
  function ProcessFailed(e: Envelope): Envelope {
    match e.Last(SentToFailureTransportStamp)
    case None => e
    case Some(s) => e.WithoutAll(ReceivedStamp).With([NewReceived(TextOf(s, "originalReceiverName"))])
  }

  /** The envelope the retry middleware and the handlers see. */
  function Inner(policy: Policy, e: Envelope): Envelope { ProcessFailed(AddBusName(e, policy.bus)) }

  function Retried(e: Envelope, wait: real): Envelope {
    e.With([NewRedelivery(e.RetryCount() + 1), NewDelay(wait)])
  }

  function DeadLettered(e: Envelope, failed: Outcome, origin: string): Envelope
    requires failed.Failed?
  {
    e.WithoutAll(DelayStamp).With([NewErrorDetails(failed.errorClass, failed.errorText)])
     .With([NewSentToFailure(origin)])
  }

  /** Where a failed handler's envelope goes; `wait` is the strategy's answer, refused when negative. */
  function OnHandlerFailed(policy: Policy, mail: World, e: Envelope, failed: Outcome, wait: real, now: real)
    : (World, Fate)
    requires failed.Failed?
  {
    match e.Last(ReceivedStamp)
    case None => (mail, Kept)
    case Some(received) =>
      var origin := TextOf(received, "transportName");
      if policy.retryable(e) then
        if wait < 0.0 then (mail, Kept)
        else match SendVia(mail, origin, Retried(e, wait), now)
          case Err(_) => (mail, Kept)
          case Ok(sent) => (sent, Moved(origin))
      else match policy.failure
        case None => (mail, Discarded)
        case Some(alias) =>
          match SendVia(mail, alias, DeadLettered(e, failed, origin), now)
          case Err(_) => (mail, Kept)
          case Ok(sent) => (sent, Moved(alias))
  }

  /** Dispatch of a received envelope. */
  function Dispatch(policy: Policy, mail: World, e: Envelope, outcome: Outcome, wait: real, now: real): (World, Fate) {
    match outcome
    case Handled => (mail, Done)
    case Infrastructure => (mail, Kept)
    case Failed(_, _) => OnHandlerFailed(policy, mail, Inner(policy, e), outcome, wait, now)
  }

  // ---- Undoing the retry bookkeeping -------------------------------------------------

  const BOOKKEEPING: set<Class> := {
    RedeliveryStamp, DelayStamp, ErrorDetailsStamp, SentToFailureTransportStamp, ReceivedStamp, TransportMessageIdStamp}

  /** The envelope without delivery and retry bookkeeping, named for its bus. */
  function Undone(e: Envelope, bus: string): Envelope {
    AddBusName(Envelope(e.message, Drop(e.stamps, BOOKKEEPING)), bus)
  }

  lemma UndoneOfWith(e: Envelope, more: seq<Stamp>, bus: string)
    requires forall x :: x in more ==> x.cls in BOOKKEEPING
    ensures Undone(e.With(more), bus) == Undone(e, bus)
  {
    DropConcat(e.stamps, more, BOOKKEEPING);
    DropsAll(more, BOOKKEEPING);
    assert Drop(e.stamps, BOOKKEEPING) + [] == Drop(e.stamps, BOOKKEEPING);
  }

  lemma {:induction false} DropsAll(s: seq<Stamp>, away: set<Class>)
    requires forall x :: x in s ==> x.cls in away
    ensures Drop(s, away) == []
  {
    if s != [] {
      DropsAll(s[..|s| - 1], away);
    }
  }

  lemma UndoneOfWithoutAll(e: Envelope, c: Class, bus: string)
    requires c in BOOKKEEPING
    ensures Undone(e.WithoutAll(c), bus) == Undone(e, bus)
  {
    DropDrop(e.stamps, {c}, BOOKKEEPING);
    assert {c} + BOOKKEEPING == BOOKKEEPING;
  }

  lemma UndoneOfAddBusName(e: Envelope, bus: string)
    ensures Undone(AddBusName(e, bus), bus) == Undone(e, bus)
  {
    hide Drop, LastOf;
    if e.Last(BusNameStamp).None? {
      var kept := Envelope(e.message, Drop(e.stamps, BOOKKEEPING));
      Append(e.stamps, NewBusName(bus));
      DropKeepsLast(e.stamps, BOOKKEEPING, BusNameStamp);
      LastOfWith(kept, NewBusName(bus), BusNameStamp);
    }
  }

  lemma DeliveryKeepsUndone(m: Mailbox, entry: Entry, bus: string)
    ensures Undone(Delivered(m, entry), bus) == Undone(entry.envelope, bus)
  {
    hide Undone;
    UndoneOfWith(entry.envelope, [NewReceived(m.name)], bus);
    UndoneOfWith(entry.envelope.With([NewReceived(m.name)]), [NewMessageId(entry.id)], bus);
  }

  lemma InnerKeepsUndone(policy: Policy, e: Envelope)
    ensures Undone(Inner(policy, e), policy.bus) == Undone(e, policy.bus)
  {
    hide Undone, ProcessFailed, AddBusName;
    ProcessFailedKeepsUndone(AddBusName(e, policy.bus), policy.bus);
    UndoneOfAddBusName(e, policy.bus);
  }

  lemma RetryKeepsUndone(e: Envelope, wait: real, bus: string)
    ensures Undone(Retried(e, wait), bus) == Undone(e, bus)
  {
    hide Undone;
    UndoneOfWith(e, [NewRedelivery(e.RetryCount() + 1), NewDelay(wait)], bus);
  }

  lemma ProcessFailedKeepsUndone(e: Envelope, bus: string)
    ensures Undone(ProcessFailed(e), bus) == Undone(e, bus)
  {
    hide Undone;
    match e.Last(SentToFailureTransportStamp)
    case None =>
    case Some(s) =>
      UndoneOfWithoutAll(e, ReceivedStamp, bus);
      UndoneOfWith(e.WithoutAll(ReceivedStamp), [NewReceived(TextOf(s, "originalReceiverName"))], bus);
  }

  lemma DeadLetteringKeepsUndone(e: Envelope, failed: Outcome, origin: string, bus: string)
    requires failed.Failed?
    ensures Undone(DeadLettered(e, failed, origin), bus) == Undone(e, bus)
  {
    hide Undone;
    var a := e.WithoutAll(DelayStamp);
    var b := a.With([NewErrorDetails(failed.errorClass, failed.errorText)]);
    UndoneOfWithoutAll(e, DelayStamp, bus);
    UndoneOfWith(a, [NewErrorDetails(failed.errorClass, failed.errorText)], bus);
    UndoneOfWith(b, [NewSentToFailure(origin)], bus);
  }

  lemma RedeliveryKeepsUndone(e: Envelope, bus: string)
    ensures Undone(Redelivery(e), bus) == Undone(e, bus)
  {
    hide Undone;
    var a := e.WithoutAll(ReceivedStamp);
    var b := a.WithoutAll(TransportMessageIdStamp);
    var c := b.WithoutAll(RedeliveryStamp);
    UndoneOfWithoutAll(e, ReceivedStamp, bus);
    UndoneOfWithoutAll(a, TransportMessageIdStamp, bus);
    UndoneOfWithoutAll(b, RedeliveryStamp, bus);
    UndoneOfWith(c, [NewRedelivery(e.RetryCount() + 1)], bus);
  }

  // ---- What a delivery's life does to the stamps the policy reads --------------------

  /** The last stamp of class `c` after appending one stamp. */
  lemma LastOfWith(e: Envelope, x: Stamp, c: Class)
    ensures e.With([x]).Last(c) == if x.cls == c then Some(x) else e.Last(c)
  {
    Append(e.stamps, x);
  }

  lemma DeliveryKeepsLast(m: Mailbox, entry: Entry, c: Class)
    requires c != ReceivedStamp && c != TransportMessageIdStamp
    ensures Delivered(m, entry).Last(c) == entry.envelope.Last(c)
  {
    LastOfWith(entry.envelope, NewReceived(m.name), c);
    LastOfWith(entry.envelope.With([NewReceived(m.name)]), NewMessageId(entry.id), c);
  }

  /** A re-sent or rejected envelope counts one retry more than the one it replaces. */
  lemma RetryCountGrows(e: Envelope, wait: real)
    ensures Retried(e, wait).RetryCount() == e.RetryCount() + 1
    ensures Redelivery(e).RetryCount() == e.RetryCount() + 1
  {
    hide LastOf, Drop;
    var n := NewRedelivery(e.RetryCount() + 1);
    LastOfWith(e, n, RedeliveryStamp);
    LastOfWith(e.With([n]), NewDelay(wait), RedeliveryStamp);
    assert e.stamps + [n, NewDelay(wait)] == e.stamps + [n] + [NewDelay(wait)];
    var bare := e.WithoutAll(ReceivedStamp).WithoutAll(TransportMessageIdStamp).WithoutAll(RedeliveryStamp);
    LastOfWith(bare, n, RedeliveryStamp);
  }

  /** Neither delivery, nor the pipeline, nor dead-lettering changes the count. */
  lemma RetryCountStays(policy: Policy, m: Mailbox, entry: Entry, e: Envelope, failed: Outcome, origin: string)
    requires failed.Failed?
    ensures Delivered(m, entry).RetryCount() == entry.envelope.RetryCount()
    ensures Inner(policy, e).RetryCount() == e.RetryCount()
    ensures DeadLettered(e, failed, origin).RetryCount() == e.RetryCount()
  {
    hide LastOf, Drop, Delivered, Inner, DeadLettered;
    DeliveryKeepsLast(m, entry, RedeliveryStamp);
    InnerKeepsLast(policy, e, RedeliveryStamp);
    DeadLetteredKeepsLast(e, failed, origin, RedeliveryStamp);
  }

  lemma InnerKeepsLast(policy: Policy, e: Envelope, c: Class)
    requires c != ReceivedStamp && c != BusNameStamp
    ensures Inner(policy, e).Last(c) == e.Last(c)
  {
    LastOfWith(e, NewBusName(policy.bus), c);
    var named := AddBusName(e, policy.bus);
    DropKeepsLast(named.stamps, {ReceivedStamp}, c);
    match named.Last(SentToFailureTransportStamp)
    case None =>
    case Some(s) => LastOfWith(named.WithoutAll(ReceivedStamp), NewReceived(TextOf(s, "originalReceiverName")), c);
  }

  lemma DeadLetteredKeepsLast(e: Envelope, failed: Outcome, origin: string, c: Class)
    requires failed.Failed?
    requires c != DelayStamp && c != ErrorDetailsStamp && c != SentToFailureTransportStamp
    ensures DeadLettered(e, failed, origin).Last(c) == e.Last(c)
  {
    var a := e.WithoutAll(DelayStamp);
    DropKeepsLast(e.stamps, {DelayStamp}, c);
    var details := NewErrorDetails(failed.errorClass, failed.errorText);
    LastOfWith(a, details, c);
    LastOfWith(a.With([details]), NewSentToFailure(origin), c);
  }

  // ---- Routing a fresh dispatch ------------------------------------------------------

  datatype Routed = PassedOn | SentOn(last: Envelope) | RouteFailed

  /** Send to each listed transport in turn; the first refusal stops the rest. */
  function FanOut(mail: World, aliases: seq<string>, senderClass: string, e: Envelope, now: real): (World, Routed) {
    if aliases == [] then (mail, SentOn(e))
    else
      var (before, routed) := FanOut(mail, aliases[..|aliases| - 1], senderClass, e, now);
      var alias := aliases[|aliases| - 1];
      match routed
      case SentOn(current) =>
        var stamped := current.With([NewSent(senderClass, alias)]);
        (match SendVia(before, alias, stamped, now)
         case Err(_) => (before, RouteFailed)
         case Ok(sent) => (sent, SentOn(stamped.With([NewMessageId(Decimal(before[alias].nextId))]))))
      case _ => (before, routed)
  }

  /** The send middleware over the transports `e` is routed to (unknown aliases already skipped). */
  method SendMessage(mail: World, aliases: seq<string>, senderClass: string, e: Envelope, now: real)
    returns (sentMail: World, routed: Routed)
    ensures e.Last(ReceivedStamp).Some? || aliases == [] ==> sentMail == mail && routed == PassedOn
    ensures e.Last(ReceivedStamp).None? && aliases != [] ==>
      (sentMail, routed) == FanOut(mail, aliases, senderClass, e, now)
  {
    sentMail, routed := mail, PassedOn;
    if e.Last(ReceivedStamp).Some? || aliases == [] {
      return;
    }
    var current := e;
    for i := 0 to |aliases|
      invariant FanOut(mail, aliases[..i], senderClass, e, now) == (sentMail, SentOn(current))
    {
      assert aliases[..i + 1][..i] == aliases[..i];
      var alias := aliases[i];
      var stamped := current.With([NewSent(senderClass, alias)]);
      match SendVia(sentMail, alias, stamped, now) {
        case Err(_) =>
          FanOutStays(mail, aliases, i + 1, senderClass, e, now);
          return sentMail, RouteFailed;
        case Ok(next) =>
          current := stamped.With([NewMessageId(Decimal(sentMail[alias].nextId))]);
          sentMail := next;
      }
    }
    assert aliases[..|aliases|] == aliases;
    routed := SentOn(current);
  }

  lemma {:induction false} FanOutStays(
    mail: World, aliases: seq<string>, k: nat, senderClass: string, e: Envelope, now: real)
    requires k <= |aliases|
    requires FanOut(mail, aliases[..k], senderClass, e, now).1.RouteFailed?
    ensures FanOut(mail, aliases, senderClass, e, now) == FanOut(mail, aliases[..k], senderClass, e, now)
    decreases |aliases|
  {
    if k < |aliases| {
      assert aliases[..|aliases| - 1][..k] == aliases[..k];
      FanOutStays(mail, aliases[..|aliases| - 1], k, senderClass, e, now);
    } else {
      assert aliases[..k] == aliases;
    }
  }

  /** `after` is `before` with one more entry: `e`, possibly with more stamps. */
  ghost predicate GotCopy(before: Mailbox, after: Mailbox, e: Envelope, now: real) {
    !before.closing && exists sent: Envelope :: IsCopy(e, sent) && after == Sent(before, sent, now)
  }

  ghost predicate IsCopy(e: Envelope, sent: Envelope) { sent.message == e.message && e.stamps <= sent.stamps }

  lemma {:induction false} FanOutTouches(mail: World, aliases: seq<string>, senderClass: string, e: Envelope, now: real)
    requires forall i, j :: 0 <= i < j < |aliases| ==> aliases[i] != aliases[j]
    ensures var after := FanOut(mail, aliases, senderClass, e, now).0;
      after.Keys == mail.Keys && forall a :: a in mail && a !in aliases ==> after[a] == mail[a]
  {
    if aliases != [] {
      FanOutTouches(mail, aliases[..|aliases| - 1], senderClass, e, now);
      assert forall a :: a in aliases[..|aliases| - 1] ==> a in aliases;
    }
  }

  /**
   * Routing gives every listed transport exactly one new entry and touches no other; it stops
   * early exactly when some listed transport refuses.
   */
  lemma {:induction false} FanOutDelivers(
    mail: World, aliases: seq<string>, senderClass: string, e: Envelope, now: real)
    requires forall i, j :: 0 <= i < j < |aliases| ==> aliases[i] != aliases[j]
    ensures var (after, routed) := FanOut(mail, aliases, senderClass, e, now);
      && after.Keys == mail.Keys
      && (forall a :: a in mail && a !in aliases ==> after[a] == mail[a])
      && !routed.PassedOn?
      && (routed.SentOn? <==> forall a :: a in aliases ==> a in mail && !mail[a].closing)
      && (routed.SentOn? ==> IsCopy(e, routed.last))
      && (routed.SentOn? ==> forall a :: a in aliases ==> GotCopy(mail[a], after[a], e, now))
  {
    FanOutTouches(mail, aliases, senderClass, e, now);
    if aliases != [] {
      var init, alias := aliases[..|aliases| - 1], aliases[|aliases| - 1];
      FanOutDelivers(mail, init, senderClass, e, now);
      assert aliases == init + [alias] && alias !in init;
      var (before, routed) := FanOut(mail, init, senderClass, e, now);
      if routed.SentOn? && alias in mail && !mail[alias].closing {
        var stamped := routed.last.With([NewSent(senderClass, alias)]);
        var after := before[alias := Sent(mail[alias], stamped, now)];
        assert IsCopy(e, stamped);
        forall a | a in aliases ensures GotCopy(mail[a], after[a], e, now) {
          if a != alias {
            assert a in init;
          }
        }
      }
    }
  }
}
