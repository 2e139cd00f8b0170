/**
 * The in-process reference transport: a queue, a registry of delivered but unsettled
 * entries, and the close calls parked until that registry is empty.
 */
module InMemory {
  import opened Common
  import opened Envelopes

  datatype Entry = Entry(id: string, envelope: Envelope, availableAt: real)

  datatype SendError = Closing | NotFound | NoMessageId

  /** The transport's state as a value; `drainWaiters` names the parked `close()` calls. */
  datatype Mailbox = Mailbox(
    name: string, queue: seq<Entry>, inFlight: map<string, Entry>, nextId: nat, closing: bool, drainWaiters: seq<nat>)

  /** Every id handed out so far. */
  ghost function Issued(n: nat): set<string> { set k: nat | k < n :: Decimal(k) }

  lemma NextIdIsFresh(n: nat)
    ensures Decimal(n) !in Issued(n)
    ensures Issued(n) <= Issued(n + 1) && Decimal(n) in Issued(n + 1)
  {
    if Decimal(n) in Issued(n) {
      var k: nat :| k < n && Decimal(k) == Decimal(n);
      DecimalIsInjective(k, n);
    }
    assert Decimal(n) in Issued(n + 1);
  }

  /** Ids are unique across queue and registry, and a close call waits only while something is in flight. */
  ghost predicate Consistent(m: Mailbox) {
    && DistinctIds(m.queue)
    && (forall i :: 0 <= i < |m.queue| ==> m.queue[i].id in Issued(m.nextId) && m.queue[i].id !in m.inFlight)
    && (forall id :: id in m.inFlight ==> id in Issued(m.nextId) && m.inFlight[id].id == id)
    && (m.drainWaiters != [] ==> m.closing && m.inFlight != map[])
  }

  // ---- What each call does to the state ----------------------------------------------

  function Push(m: Mailbox, e: Envelope, availableAt: real): Mailbox {
    m.(queue := m.queue + [Entry(Decimal(m.nextId), e, availableAt)], nextId := m.nextId + 1)
  }

  function Sent(m: Mailbox, e: Envelope, now: real): Mailbox {
    if m.closing then m else Push(m, e, now + e.DelayMs())
  }

  /** Index of the first entry whose time has come. */
  function FirstDue(queue: seq<Entry>, now: real): (r: Option<nat>)
    ensures r.Some? ==> r.value < |queue| && queue[r.value].availableAt <= now
    ensures r.Some? ==> forall i :: 0 <= i < r.value ==> queue[i].availableAt > now
    ensures r.None? ==> forall i :: 0 <= i < |queue| ==> queue[i].availableAt > now
  {
    if queue == [] then None
    else if queue[0].availableAt <= now then Some(0)
    else match FirstDue(queue[1..], now)
      case None => None
      case Some(k) => Some(k + 1)
  }

  function Taken(m: Mailbox, now: real): Mailbox {
    match FirstDue(m.queue, now)
    case None => m
    case Some(k) =>
      var entry := m.queue[k];
      m.(queue := m.queue[..k] + m.queue[k + 1..], inFlight := m.inFlight[entry.id := entry])
  }

  /** The envelope a consumer receives for an entry. */
  function Delivered(m: Mailbox, entry: Entry): Envelope {
    entry.envelope.With([NewReceived(m.name)]).With([NewMessageId(entry.id)])
  }

  function Without(queue: seq<Entry>, id: string): seq<Entry> {
    if queue == [] then []
    else if queue[0].id == id then Without(queue[1..], id)
    else [queue[0]] + Without(queue[1..], id)
  }

  /** Release an id; the parked close calls resume once nothing is left in flight. */
  function Settled(m: Mailbox, id: string): Mailbox {
    var left := m.inFlight - {id};
    m.(inFlight := left, drainWaiters := if left == map[] then [] else m.drainWaiters)
  }

  function Acked(m: Mailbox, id: string): Mailbox { Settled(m.(queue := Without(m.queue, id)), id) }

  /** The copy a rejected delivery leaves in the queue. */
  function Redelivery(e: Envelope): Envelope {
    e.WithoutAll(ReceivedStamp).WithoutAll(TransportMessageIdStamp).WithoutAll(RedeliveryStamp)
     .With([NewRedelivery(e.RetryCount() + 1)])
  }

  function Rejected(m: Mailbox, e: Envelope, id: string, now: real): Mailbox {
    if id !in m.inFlight then m else Settled(Push(m, Redelivery(e), now), id)
  }

  function Closed(m: Mailbox, caller: nat): Mailbox {
    m.(closing := true, drainWaiters := if m.inFlight == map[] then m.drainWaiters else m.drainWaiters + [caller])
  }

  function Find(queue: seq<Entry>, id: string): (r: Option<Entry>)
    ensures r.Some? ==> r.value in queue && r.value.id == id
    ensures r.None? ==> forall i :: 0 <= i < |queue| ==> queue[i].id != id
  {
    if queue == [] then None else if queue[0].id == id then Some(queue[0]) else Find(queue[1..], id)
  }

  // ---- Any sequence of calls ---------------------------------------------------------

  datatype Call =
    | SendCall(e: Envelope)
    | PollCall
    | AckCall(id: string)
    | RejectCall(e: Envelope, id: string)
    | CloseCall(caller: nat)

  function Apply(m: Mailbox, call: Call, now: real): Mailbox {
    match call
    case SendCall(e) => Sent(m, e, now)
    case PollCall => if m.closing then m else Taken(m, now)
    case AckCall(id) => Acked(m, id)
    case RejectCall(e, id) => Rejected(m, e, id, now)
    case CloseCall(caller) => Closed(m, caller)
  }

  ghost predicate DistinctIds(queue: seq<Entry>) {
    forall i, j :: 0 <= i < j < |queue| ==> queue[i].id != queue[j].id
  }

  lemma {:induction false} WithoutMembers(queue: seq<Entry>, id: string)
    ensures forall x :: x in Without(queue, id) <==> x in queue && x.id != id
  {
    if queue != [] {
      WithoutMembers(queue[1..], id);
      assert queue == [queue[0]] + queue[1..];
    }
  }

  lemma {:induction false} WithoutDistinct(queue: seq<Entry>, id: string)
    requires DistinctIds(queue)
    ensures DistinctIds(Without(queue, id))
  {
    if queue != [] {
      WithoutDistinct(queue[1..], id);
      WithoutMembers(queue[1..], id);
      var rest := Without(queue[1..], id);
      forall j | 0 <= j < |rest| ensures rest[j].id != queue[0].id {
        assert rest[j] in queue[1..];
      }
    }
  }

  lemma {:induction false} WithoutAbsent(queue: seq<Entry>, id: string)
    requires forall x :: x in queue ==> x.id != id
    ensures Without(queue, id) == queue
  {
    if queue != [] {
      assert queue[0] in queue;
      assert forall x :: x in queue[1..] ==> x in queue;
      WithoutAbsent(queue[1..], id);
    }
  }

  lemma TakenFacts(m: Mailbox, now: real)
    requires Consistent(m)
    ensures Consistent(Taken(m, now))
  {
    match FirstDue(m.queue, now)
    case None =>
    case Some(k) =>
      var q := Taken(m, now).queue;
      assert forall i :: 0 <= i < |q| ==> q[i] == m.queue[if i < k then i else i + 1];
  }

  lemma PushFacts(m: Mailbox, e: Envelope, at: real)
    requires Consistent(m)
    ensures Consistent(Push(m, e, at))
  {
    NextIdIsFresh(m.nextId);
  }

  lemma SettledFacts(m: Mailbox, id: string)
    requires Consistent(m)
    ensures Consistent(Settled(m, id))
  {
  }

  lemma AckedFacts(m: Mailbox, id: string)
    requires Consistent(m)
    ensures Consistent(Acked(m, id))
  {
    WithoutMembers(m.queue, id);
    WithoutDistinct(m.queue, id);
    var w := Without(m.queue, id);
    forall i | 0 <= i < |w| ensures w[i].id in Issued(m.nextId) && w[i].id !in m.inFlight {
      assert w[i] in m.queue;
    }
    SettledFacts(m.(queue := w), id);
  }

  /** Every call keeps the state consistent. */
  lemma ApplyKeepsConsistent(m: Mailbox, call: Call, now: real)
    requires Consistent(m)
    ensures Consistent(Apply(m, call, now))
  {
    match call
    case SendCall(e) => if !m.closing { PushFacts(m, e, now + e.DelayMs()); }
    case PollCall => TakenFacts(m, now);
    case AckCall(id) => AckedFacts(m, id);
    case RejectCall(e, id) =>
      if id in m.inFlight {
        PushFacts(m, Redelivery(e), now);
        SettledFacts(Push(m, Redelivery(e), now), id);
      }
    case CloseCall(caller) =>
  }

  function Calls(m: Mailbox, calls: seq<(Call, real)>): Mailbox
    decreases |calls|
  {
    if calls == [] then m else Calls(Apply(m, calls[0].0, calls[0].1), calls[1..])
  }

  /** Once closing, nothing enters the registry and nothing but a reject grows the queue. */
  lemma ClosingOnlyDrains(m: Mailbox, call: Call, now: real)
    requires Consistent(m) && m.closing
    ensures Apply(m, call, now).closing
    ensures Apply(m, call, now).inFlight.Keys <= m.inFlight.Keys
    ensures m.inFlight != map[] && Apply(m, call, now).inFlight != map[]
      ==> m.drainWaiters <= Apply(m, call, now).drainWaiters
    ensures Apply(m, call, now).inFlight == map[] ==> Apply(m, call, now).drainWaiters == []
  {
    ApplyKeepsConsistent(m, call, now);
  }

  /** The callers of the close calls among `calls`, in order. */
  function Closers(calls: seq<(Call, real)>): seq<nat> {
    if calls == [] then []
    else (if calls[0].0.CloseCall? then [calls[0].0.caller] else []) + Closers(calls[1..])
  }

  lemma {:induction false} ClosersStayParked(m: Mailbox, calls: seq<(Call, real)>)
    requires Consistent(m) && m.closing
    ensures var u := Calls(m, calls);
      && Consistent(u) && u.closing && u.inFlight.Keys <= m.inFlight.Keys
      && u.drainWaiters == if u.inFlight == map[] then [] else m.drainWaiters + Closers(calls)
    decreases |calls|
  {
    hide *;
    CallsNext(m, calls);
    if calls != [] {
      var call, now := calls[0].0, calls[0].1;
      var next := Apply(m, call, now);
      ApplyKeepsConsistent(m, call, now);
      ClosingOnlyDrains(m, call, now);
      if next.inFlight != map[] { ParksNext(m, call, now); }
      ClosersStayParked(next, calls[1..]);
      var u := Calls(next, calls[1..]);
      if u.inFlight != map[] {
        assert u.inFlight.Keys != {};
        assert next.inFlight != map[];
      }
    }
  }

  lemma CallsNext(m: Mailbox, calls: seq<(Call, real)>)
    ensures calls == [] ==> Calls(m, calls) == m && m.drainWaiters + Closers(calls) == m.drainWaiters
    ensures calls == [] && Consistent(m) && m.inFlight == map[] ==> m.drainWaiters == []
    ensures calls != [] ==>
      var next := Apply(m, calls[0].0, calls[0].1);
      var first := if calls[0].0.CloseCall? then [calls[0].0.caller] else [];
      && Calls(m, calls) == Calls(next, calls[1..])
      && (m.drainWaiters + first) + Closers(calls[1..]) == m.drainWaiters + Closers(calls)
  {
    hide Apply;
    if calls != [] {
      var first := if calls[0].0.CloseCall? then [calls[0].0.caller] else [];
      assert m.drainWaiters + (first + Closers(calls[1..])) == (m.drainWaiters + first) + Closers(calls[1..]);
    }
  }

  /** While something stays in flight, a close call is parked behind the others and nobody leaves. */
  lemma ParksNext(m: Mailbox, call: Call, now: real)
    requires Consistent(m) && Apply(m, call, now).inFlight != map[]
    ensures Apply(m, call, now).drainWaiters == m.drainWaiters + if call.CloseCall? then [call.caller] else []
  {
    hide Redelivery, Without, Decimal, Envelope.DelayMs;
  }

  /**
   * Close and drain: after a close call in any state and whatever calls follow it, nothing is in
   * flight that was not when it came, and while something is, exactly the close calls so far are
   * parked, this one among them; once nothing is, nobody is.
   */
  lemma CloseDrains(m: Mailbox, caller: nat, now: real, calls: seq<(Call, real)>)
    requires Consistent(m)
    ensures var u := Calls(Apply(m, CloseCall(caller), now), calls);
      && Consistent(u) && u.closing && u.inFlight.Keys <= m.inFlight.Keys
      && u.drainWaiters == if u.inFlight == map[] then [] else m.drainWaiters + [caller] + Closers(calls)
  {
    var c := Apply(m, CloseCall(caller), now);
    ApplyKeepsConsistent(m, CloseCall(caller), now);
    if m.inFlight != map[] {
      ParksNext(m, CloseCall(caller), now);
    }
    ClosersStayParked(c, calls);
    hide Consistent, Calls, Closers;
    if m.inFlight == map[] {
      assert c.inFlight.Keys == {};
      assert Calls(c, calls).inFlight.Keys == {};
    }
  }

  /** The call that resumes them is the settle of the last delivery, and only that. */
  lemma LastSettleDrains(m: Mailbox, call: Call, now: real)
    requires Consistent(m) && m.closing && m.inFlight != map[]
    ensures Apply(m, call, now).inFlight == map[] <==>
      (call.AckCall? || call.RejectCall?) && m.inFlight.Keys == {call.id}
  {
    hide Redelivery, Without, Decimal, Envelope.DelayMs;
    if call.AckCall? || call.RejectCall? {
      var left := m.inFlight - {call.id};
      forall id | id in m.inFlight && id != call.id ensures id in left {}
      var id :| id in m.inFlight;
      assert left == map[] ==> m.inFlight.Keys == {call.id};
      assert m.inFlight.Keys == {call.id} ==> left.Keys == {};
    }
  }

  // ---- Settling twice ----------------------------------------------------------------

  /** Acking again, or rejecting after an ack, changes nothing. */
  lemma AckSettlesOnce(m: Mailbox, e: Envelope, id: string, later: real)
    ensures Acked(Acked(m, id), id) == Acked(m, id)
    ensures Rejected(Acked(m, id), e, id, later) == Acked(m, id)
  {
    WithoutMembers(m.queue, id);
    WithoutAbsent(Without(m.queue, id), id);
    assert (m.inFlight - {id}) - {id} == m.inFlight - {id};
  }

  /** Rejecting again publishes no second copy, and a late ack leaves the first copy in the queue. */
  lemma RejectSettlesOnce(m: Mailbox, e: Envelope, id: string, now: real, later: real)
    requires Consistent(m)
    ensures Rejected(Rejected(m, e, id, now), e, id, later) == Rejected(m, e, id, now)
    ensures id in m.inFlight ==> Acked(Rejected(m, e, id, now), id) == Rejected(m, e, id, now)
  {
    if id in m.inFlight {
      var r := Rejected(m, e, id, now);
      RejectedIsGone(m, e, id, now);
      hide Redelivery, Decimal, Consistent;
      WithoutAbsent(r.queue, id);
      assert r.inFlight - {id} == r.inFlight;
      hide Without;
    }
  }

  /** No entry of the queue has the rejected id: the copy got a new one. */
  lemma RejectedIsGone(m: Mailbox, e: Envelope, id: string, now: real)
    requires Consistent(m) && id in m.inFlight
    ensures forall x :: x in Rejected(m, e, id, now).queue ==> x.id != id
  {
    hide Redelivery;
    NextIdIsFresh(m.nextId);
    forall x | x in m.queue ensures x.id != id {
      var i :| 0 <= i < |m.queue| && m.queue[i] == x;
    }
  }

  lemma {:induction false} FirstDueOfPush(queue: seq<Entry>, x: Entry, now: real)
    ensures FirstDue(queue + [x], now) ==
      match FirstDue(queue, now)
      case Some(k) => Some(k)
      case None => if x.availableAt <= now then Some(|queue|) else None
  {
    if queue == [] {
      assert [x][1..] == [];
    } else {
      FirstDueOfPush(queue[1..], x, now);
      assert (queue + [x])[1..] == queue[1..] + [x];
    }
  }

  /** A sent message is the next one taken exactly when its delay is over and none queued before it is due. */
  lemma SentIsTakenIff(m: Mailbox, e: Envelope, now: real, later: real)
    requires Consistent(m) && !m.closing
    ensures Decimal(m.nextId) in Taken(Sent(m, e, now), later).inFlight <==>
      later >= now + e.DelayMs() && forall i :: 0 <= i < |m.queue| ==> m.queue[i].availableAt > later
  {
    NextIdIsFresh(m.nextId);
    hide Decimal, Envelope.DelayMs;
    FirstDueOfPush(m.queue, Entry(Decimal(m.nextId), e, now + e.DelayMs()), later);
    assert Decimal(m.nextId) !in m.inFlight;
    var due := FirstDue(m.queue, later);
    if due.Some? {
      assert m.queue[due.value].id in Issued(m.nextId) && m.queue[due.value].availableAt <= later;
    }
  }

  /** So is the copy of a rejected one, at once. */
  lemma RejectedIsTakenIff(m: Mailbox, e: Envelope, id: string, now: real, later: real)
    requires Consistent(m) && id in m.inFlight
    ensures Decimal(m.nextId) in Taken(Rejected(m, e, id, now), later).inFlight <==>
      later >= now && forall i :: 0 <= i < |m.queue| ==> m.queue[i].availableAt > later
  {
    NextIdIsFresh(m.nextId);
    hide Decimal, Redelivery;
    FirstDueOfPush(m.queue, Entry(Decimal(m.nextId), Redelivery(e), now), later);
    assert Decimal(m.nextId) !in m.inFlight;
    var due := FirstDue(m.queue, later);
    if due.Some? {
      assert m.queue[due.value].id in Issued(m.nextId) && m.queue[due.value].availableAt <= later;
    }
  }

  lemma DeliveredId(m: Mailbox, entry: Entry)
    ensures Delivered(m, entry).MessageId() == Some(entry.id)
  {
    Append(entry.envelope.With([NewReceived(m.name)]).stamps, NewMessageId(entry.id));
  }

  lemma RejectedIs(m: Mailbox, e: Envelope, id: string, now: real)
    requires Consistent(m)
    ensures Consistent(Rejected(m, e, id, now)) && (m.inFlight == map[] ==> m.drainWaiters == [])
    ensures Rejected(m, e, id, now) == if id in m.inFlight then Settled(Push(m, Redelivery(e), now), id) else m
  {
    ApplyKeepsConsistent(m, RejectCall(e, id), now);
  }

  // ---- The transport object ----------------------------------------------------------

  datatype PollStep = Ended | Sleep | Yield(envelope: Envelope)

  class InMemoryTransport {
    const name: string
    var queue: seq<Entry>
    var inFlight: map<string, Entry>
    var drainWaiters: seq<nat>
    var nextId: nat
    var closing: bool

    ghost function View(): Mailbox
      reads this
    {
      Mailbox(name, queue, inFlight, nextId, closing, drainWaiters)
    }

    ghost predicate Valid()
      reads this
    {
      Consistent(View())
    }

    constructor (name: string := "in-memory")
      ensures Valid() && View() == Mailbox(name, [], map[], 0, false, [])
    {
      this.name := name;
      queue, inFlight, drainWaiters, nextId, closing := [], map[], [], 0, false;
    }

    method Send(e: Envelope, now: real) returns (r: Result<Envelope, SendError>)
      requires Valid()
      modifies this
      ensures Valid() && View() == Sent(old(View()), e, now)
      ensures r == if old(closing) then Err(Closing) else Ok(e.With([NewMessageId(Decimal(old(nextId)))]))
    {
      ApplyKeepsConsistent(View(), SendCall(e), now);
      if closing {
        return Err(Closing);
      }
      var id := NextMessageId();
      queue := queue + [Entry(id, e, now + e.DelayMs())];
      r := Ok(e.With([NewMessageId(id)]));
    }

    method NextMessageId() returns (id: string)
      modifies this`nextId
      ensures id == Decimal(old(nextId)) && nextId == old(nextId) + 1
    {
      id := Decimal(nextId);
      nextId := nextId + 1;
    }

    /** One turn of the consuming loop: stop, sleep for a poll interval, or deliver. */
    method Poll(aborted: bool, now: real) returns (step: PollStep)
      requires Valid()
      modifies this
      ensures Valid()
      ensures View() == if aborted || old(closing) then old(View()) else Taken(old(View()), now)
      ensures step ==
        if aborted || old(closing) then Ended
        else match FirstDue(old(queue), now)
          case None => Sleep
          case Some(k) => Yield(Delivered(old(View()), old(queue)[k]))
    {
      if aborted || closing {
        return Ended;
      }
      TakenFacts(View(), now);
      var due := FirstDue(queue, now);
      if due.None? {
        return Sleep;
      }
      var entry := queue[due.value];
      queue := queue[..due.value] + queue[due.value + 1..];
      inFlight := inFlight[entry.id := entry];
      step := Yield(entry.envelope.With([NewReceived(name)]).With([NewMessageId(entry.id)]));
    }

    /** `woken` are the close calls whose wait this settle ends. */
    method Settle(id: string) returns (woken: seq<nat>)
      modifies this
      ensures View() == Settled(old(View()), id)
      ensures woken == if inFlight == map[] then old(drainWaiters) else []
    {
      inFlight := inFlight - {id};
      woken := [];
      if inFlight == map[] {
        woken, drainWaiters := drainWaiters, [];
      }
    }

    method Ack(e: Envelope) returns (r: Result<seq<nat>, SendError>)
      requires Valid()
      modifies this
      ensures Valid()
      ensures r.Err? <==> e.MessageId().None?
      ensures View() == if e.MessageId().None? then old(View()) else Acked(old(View()), e.MessageId().value)
      ensures r.Ok? ==> r.value == if inFlight == map[] then old(drainWaiters) else []
    {
      var id := e.MessageId();
      if id.None? {
        return Err(NoMessageId);
      }
      AckedFacts(View(), id.value);
      queue := Without(queue, id.value);
      var woken := Settle(id.value);
      r := Ok(woken);
    }

    method Reject(e: Envelope, now: real) returns (r: Result<seq<nat>, SendError>)
      requires Valid()
      modifies this
      ensures Valid()
      ensures r.Err? <==> e.MessageId().None?
      ensures View() == if e.MessageId().None? then old(View()) else Rejected(old(View()), e, e.MessageId().value, now)
      ensures r.Ok? ==> r.value == if inFlight == map[] then old(drainWaiters) else []
    {
      var id := e.MessageId();
      if id.None? {
        return Err(NoMessageId);
      }
      ghost var m := View();
      RejectedIs(m, e, id.value, now);
      hide Consistent, Redelivery, Decimal, Rejected, Settled, Envelope.MessageId;
      if id.value !in inFlight {
        return Ok([]);
      }
      var newId := NextMessageId();
      queue := queue + [Entry(newId, Redelivery(e), now)];
      assert View() == Push(m, Redelivery(e), now);
      var woken := Settle(id.value);
      r := Ok(woken);
    }

    /** `done` when the call returns at once; otherwise `caller` is parked. */
    method Close(caller: nat) returns (done: bool)
      requires Valid()
      modifies this
      ensures Valid() && View() == Closed(old(View()), caller)
      ensures done <==> old(inFlight) == map[]
      ensures closing && drainWaiters == if done then old(drainWaiters) else old(drainWaiters) + [caller]
      ensures queue == old(queue) && inFlight == old(inFlight) && nextId == old(nextId)
    {
      closing := true;
      done := inFlight == map[];
      if !done {
        drainWaiters := drainWaiters + [caller];
      }
    }

    method List(limit: Option<nat>) returns (out: seq<Envelope>)
      ensures |out| == if limit.None? || limit.value > |queue| then |queue| else limit.value
      ensures forall i :: 0 <= i < |out| ==> out[i] == queue[i].envelope.With([NewMessageId(queue[i].id)])
    {
      var entries := if limit.None? || limit.value > |queue| then queue else queue[..limit.value];
      out := [];
      for i := 0 to |entries|
        invariant |out| == i
        invariant forall j :: 0 <= j < i ==> out[j] == queue[j].envelope.With([NewMessageId(queue[j].id)])
      {
        out := out + [entries[i].envelope.With([NewMessageId(entries[i].id)])];
      }
    }
  }
}
