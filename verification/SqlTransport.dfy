/** The SQL transport object over the table: encoding, the registry of deliveries, and settling. */
module SqlTransport {
  import opened Common
  import opened Envelopes
  import opened Serializer
  import opened SqlTable

  type Stored = EncodedEnvelope

  type Rows = map<nat, Row<Stored>>

  datatype Failure = Closing | NoMessageId | BadId

  /** One pass of the loop in `get`. */
  datatype PollStep = Ended | Sleep | Discarded(id: nat) | Yield(envelope: Envelope)

  // ---- Ids as text -------------------------------------------------------------------

  predicate IsDigit(c: char) { '0' <= c <= '9' }

  /** The number a text of digits stands for. */
  function ParseId(text: string): Option<nat> {
    if text == [] then None
    else
      var last := text[|text| - 1];
      if !IsDigit(last) then None
      else if |text| == 1 then Some(last as nat - '0' as nat)
      else match ParseId(text[..|text| - 1])
        case None => None
        case Some(n) => Some(10 * n + (last as nat - '0' as nat))
  }

  /** The id stamped on a message is read back as its row's. */
  lemma {:induction false} ParseIdOfDecimal(n: nat)
    ensures ParseId(Decimal(n)) == Some(n)
  {
    var text := Decimal(n);
    DigitIs(n % 10);
    if n >= 10 {
      ParseIdOfDecimal(n / 10);
      assert text[..|text| - 1] == Decimal(n / 10);
    }
  }

  lemma DigitIs(d: nat)
    requires d < 10
    ensures IsDigit(DIGITS[d]) && DIGITS[d] as nat - '0' as nat == d
  {
  }

  // ---- What a row delivers -----------------------------------------------------------

  function Delivered(reg: Registry, name: string, row: Row<Stored>, id: nat): Option<Envelope> {
    match Decode(reg, row.body)
    case Err(_) => None
    case Ok(e) => Some(e.With([NewReceived(name)]).With([NewMessageId(Decimal(id))]))
  }

  /** The copy `reject` stores. */
  function Redelivery(e: Envelope): Envelope {
    e.WithoutAll(RedeliveryStamp).With([NewRedelivery(e.RetryCount() + 1)])
  }

  function DeliveredAll(reg: Registry, name: string, rows: Rows, ids: seq<nat>): seq<Envelope>
    requires forall i :: 0 <= i < |ids| ==> ids[i] in rows
  {
    if ids == [] then []
    else
      var before := DeliveredAll(reg, name, rows, ids[..|ids| - 1]);
      match Delivered(reg, name, rows[ids[|ids| - 1]], ids[|ids| - 1])
      case None => before
      case Some(e) => before + [e]
  }

  ghost predicate IdsIssued(db: Db<Stored>) { forall id :: id in db.rows ==> id < db.nextId }

  class MessageTable {
    var db: Db<Stored>

    constructor (now: real)
      ensures db == Db(map[], 0, now)
    {
      db := Db(map[], 0, now);
    }
  }

  class SqlTransport {
    const table: MessageTable
    const registry: Registry
    const name: string
    const queueName: string
    const timeout: real
    var inFlight: set<string>
    var drainWaiters: seq<nat>
    var closing: bool

    ghost predicate Valid()
      reads this, table
    {
      IdsIssued(table.db) && (drainWaiters != [] ==> closing && inFlight != {})
    }

    constructor (table: MessageTable, registry: Registry, queueName: string, name: string, timeout: real)
      requires IdsIssued(table.db)
      ensures Valid() && this.table == table && this.registry == registry && this.name == name
      ensures this.queueName == queueName && this.timeout == timeout && inFlight == {} && !closing
    {
      this.table, this.registry, this.name := table, registry, name;
      this.queueName, this.timeout := queueName, timeout;
      inFlight, drainWaiters, closing := {}, [], false;
    }

    method Send(e: Envelope) returns (r: Result<Envelope, Failure>)
      requires Valid()
      modifies table
      ensures Valid()
      ensures r == if closing then Err(Closing) else Ok(e.With([NewMessageId(Decimal(old(table.db).nextId))]))
      ensures table.db == if closing then old(table.db) else Inserted(old(table.db), queueName, Encoded(e), e.DelayMs())
    {
      if closing {
        return Err(Closing);
      }
      var id := table.db.nextId;
      table.db := Inserted(table.db, queueName, Encoded(e), e.DelayMs());
      r := Ok(e.With([NewMessageId(Decimal(id))]));
    }

    /** The head of the loop in `get`: the only place where a consumer looks at `closing`. */
    method MayPass(aborted: bool) returns (pass: bool)
      requires Valid()
      ensures pass <==> !aborted && !closing
    {
      pass := !aborted && !closing;
    }

    /** The claim, awaited after the setup: issued whether or not `closing` was set meanwhile. */
    method ClaimRow() returns (got: Option<(nat, Row<Stored>)>)
      requires Valid()
      modifies table
      ensures Valid()
      ensures var (claimed, id) := ClaimOne(old(table.db), queueName, timeout);
        && table.db == claimed && (got.Some? <==> id.Some?)
        && (got.Some? ==>
              && got.value.0 == id.value && id.value in old(table.db).rows
              && got.value.1 == old(table.db).rows[id.value])
    {
      var (claimed, id) := ClaimOne(table.db, queueName, timeout);
      if id.None? {
        return None;
      }
      got := Some((id.value, table.db.rows[id.value]));
      table.db := claimed;
    }

    /**
     * What `get` does with the claimed row when the claim comes back: discard it when it does not
     * decode, else register and deliver it, even if `close` was called while it was awaited.
     */
    method Receive(id: nat, row: Row<Stored>) returns (step: PollStep)
      requires Valid()
      modifies this, table
      ensures Valid() && closing == old(closing) && drainWaiters == old(drainWaiters)
      ensures match Delivered(registry, name, row, id)
        case None => step == Discarded(id) && table.db == Deleted(old(table.db), id) && inFlight == old(inFlight)
        case Some(e) => step == Yield(e) && table.db == old(table.db) && inFlight == old(inFlight) + {Decimal(id)}
    {
      hide Decode, Decimal;
      var envelope := Delivered(registry, name, row, id);
      if envelope.None? {
        table.db := Deleted(table.db, id);
        return Discarded(id);
      }
      inFlight := inFlight + {Decimal(id)};
      step := Yield(envelope.value);
    }

    /** One pass of the loop in `get`, when nothing else happens while its statements run. */
    method Poll(aborted: bool) returns (step: PollStep)
      requires Valid()
      modifies this, table
      ensures Valid() && closing == old(closing) && drainWaiters == old(drainWaiters)
      ensures step == Ended <==> aborted || closing
      ensures step == Ended ==> table.db == old(table.db) && inFlight == old(inFlight)
      ensures step != Ended ==> var (claimed, got) := ClaimOne(old(table.db), queueName, timeout);
        match got
        case None => step == Sleep && table.db == old(table.db) && inFlight == old(inFlight)
        case Some(id) =>
          id in old(table.db).rows &&
          match Delivered(registry, name, old(table.db).rows[id], id)
          case None => step == Discarded(id) && table.db == Deleted(claimed, id) && inFlight == old(inFlight)
          case Some(e) => step == Yield(e) && table.db == claimed && inFlight == old(inFlight) + {Decimal(id)}
    {
      var pass := MayPass(aborted);
      if !pass {
        return Ended;
      }
      var got := ClaimRow();
      if got.None? {
        return Sleep;
      }
      hide Delivered, Decimal;
      step := Receive(got.value.0, got.value.1);
    }

    /** `woken` are the close calls whose wait this release ends. */
    method Release(id: string) returns (woken: seq<nat>)
      requires Valid()
      modifies this
      ensures Valid() && closing == old(closing) && inFlight == old(inFlight) - {id}
      ensures woken == if inFlight == {} then old(drainWaiters) else []
      ensures drainWaiters == if inFlight == {} then [] else old(drainWaiters)
    {
      inFlight := inFlight - {id};
      woken := [];
      if inFlight == {} {
        woken, drainWaiters := drainWaiters, [];
      }
    }

    /** Deleting a row that is not there changes nothing, which is what makes a second ack harmless. */
    method Ack(e: Envelope) returns (r: Result<seq<nat>, Failure>)
      requires Valid()
      modifies this, table
      ensures Valid() && closing == old(closing)
      ensures match e.MessageId()
        case None =>
          && r == Err(NoMessageId) && table.db == old(table.db) && inFlight == old(inFlight)
          && drainWaiters == old(drainWaiters)
        case Some(text) =>
          && inFlight == old(inFlight) - {text}
          && table.db == (match ParseId(text) case None => old(table.db) case Some(id) => Deleted(old(table.db), id))
          && (r.Ok? <==> ParseId(text).Some?)
          && drainWaiters == (if inFlight == {} then [] else old(drainWaiters))
          && (r.Ok? ==> r.value == if inFlight == {} then old(drainWaiters) else [])
    {
      var text := e.MessageId();
      if text.None? {
        return Err(NoMessageId);
      }
      var woken := Release(text.value);
      var id := ParseId(text.value);
      if id.None? {
        return Err(BadId);
      }
      table.db := Deleted(table.db, id.value);
      r := Ok(woken);
    }

    method Reject(e: Envelope) returns (r: Result<seq<nat>, Failure>)
      requires Valid()
      modifies this, table
      ensures Valid() && closing == old(closing)
      ensures match e.MessageId()
        case None =>
          && r == Err(NoMessageId) && table.db == old(table.db) && inFlight == old(inFlight)
          && drainWaiters == old(drainWaiters)
        case Some(text) =>
          if text !in old(inFlight) then
            && r == Ok([]) && table.db == old(table.db) && inFlight == old(inFlight)
            && drainWaiters == old(drainWaiters)
          else
            && inFlight == old(inFlight) - {text}
            && table.db == (match ParseId(text)
                 case None => old(table.db)
                  case Some(id) =>
                    Redelivered(old(table.db), id, queueName, Encoded(Redelivery(e)), Redelivery(e).DelayMs()))
            && (r.Ok? <==> ParseId(text).Some?)
            && drainWaiters == (if inFlight == {} then [] else old(drainWaiters))
            && (r.Ok? ==> r.value == if inFlight == {} then old(drainWaiters) else [])
    {
      hide Encoded, LastOf, Drop;
      var text := e.MessageId();
      if text.None? {
        return Err(NoMessageId);
      }
      if text.value !in inFlight {
        return Ok([]);
      }
      var woken := Release(text.value);
      var id := ParseId(text.value);
      if id.None? {
        return Err(BadId);
      }
      var copy := Redelivery(e);
      table.db := Redelivered(table.db, id.value, queueName, Encoded(copy), copy.DelayMs());
      r := Ok(woken);
    }

    /** Rows that do not decode are skipped. */
    method List(limit: nat) returns (out: seq<Envelope>)
      requires Valid()
      ensures var ids := Listing(table.db, queueName, limit);
         (forall i :: 0 <= i < |ids| ==> ids[i] in table.db.rows)
         && out == DeliveredAll(registry, name, table.db.rows, ids)
    {
      hide Decode, Decimal;
      ListingIsKnown(table.db, queueName, limit);
      var ids := Listing(table.db, queueName, limit);
      hide Listing;
      out := [];
      assert ids[..0] == [];
      for i := 0 to |ids|
        invariant out == DeliveredAll(registry, name, table.db.rows, ids[..i])
      {
        assert ids[..i + 1][..i] == ids[..i];
        var envelope := Delivered(registry, name, table.db.rows[ids[i]], ids[i]);
        if envelope.Some? {
          out := out + [envelope.value];
        }
      }
      assert ids[..|ids|] == ids;
    }

    method Find(text: string) returns (r: Option<Envelope>)
      requires Valid()
      ensures r == match ParseId(text)
        case None => None
        case Some(id) => if id in table.db.rows then Delivered(registry, name, table.db.rows[id], id) else None
    {
      var id := ParseId(text);
      if id.None? || id.value !in table.db.rows {
        return None;
      }
      r := Delivered(registry, name, table.db.rows[id.value], id.value);
    }

    /** The part of `close` before its first wait; a parked call is woken by `Release`. */
    method Close(caller: nat) returns (parked: bool)
      requires Valid()
      modifies this
      ensures Valid() && closing && inFlight == old(inFlight)
      ensures parked <==> !old(closing) && inFlight != {}
      ensures drainWaiters == if parked then old(drainWaiters) + [caller] else old(drainWaiters)
    {
      if closing {
        return false;
      }
      closing := true;
      parked := inFlight != {};
      if parked {
        drainWaiters := drainWaiters + [caller];
      }
    }
  }

  lemma ListingIsKnown(db: Db<Stored>, queue: string, limit: nat)
    ensures forall i :: 0 <= i < |Listing(db, queue, limit)| ==> Listing(db, queue, limit)[i] in db.rows
  {
    InOrderFacts(db.rows, QueueIds(db, queue));
    var all := InOrder(db.rows, QueueIds(db, queue));
    hide InOrder, QueueIds;
    assert forall i :: 0 <= i < |all| ==> all[i] in all;
  }

  // ---- What a receiver gets ----------------------------------------------------------

  /** A sent envelope is delivered with its message and its sendable stamps, and settled under its own id. */
  lemma SentIsDelivered(reg: Registry, name: string, e: Envelope, queue: string, db: Db<Stored>)
    requires KnowsAll(reg, e)
    ensures var row := Inserted(db, queue, Encoded(e), e.DelayMs()).rows[db.nextId];
      var d := Delivered(reg, name, row, db.nextId);
      && d.Some? && d.value.message == e.message
      && (forall c :: c !in NON_SENDABLE ==> d.value.Last(c) == e.Last(c))
      && d.value.MessageId() == Some(Decimal(db.nextId)) && ParseId(Decimal(db.nextId)) == Some(db.nextId)
      && d.value.Last(ReceivedStamp) == Some(NewReceived(name))
  {
    RoundTrip(reg, e);
    hide Decode, Encoded, KnowsAll, SameContent, LastOf, Decimal;
    ParseIdOfDecimal(db.nextId);
    var decoded := Decode(reg, Encoded(e)).value;
    DeliveryStamps(decoded, name, Decimal(db.nextId));
    assert decoded.message == e.message by { SameMessage(e, decoded); }
  }

  lemma SameMessage(e: Envelope, d: Envelope)
    requires SameContent(e, d)
    ensures d.message == e.message
  {
  }

  lemma DeliveryStamps(e: Envelope, name: string, id: string)
    ensures var d := e.With([NewReceived(name)]).With([NewMessageId(id)]);
      && d.message == e.message && d.MessageId() == Some(id) && d.Last(ReceivedStamp) == Some(NewReceived(name))
      && forall c :: c !in NON_SENDABLE ==> d.Last(c) == e.Last(c)
  {
    Append(e.stamps, NewReceived(name));
    Append(e.With([NewReceived(name)]).stamps, NewMessageId(id));
    hide LastOf;
  }

  /** A rejected envelope comes back with the same message, one retry more, and its other sendable stamps. */
  lemma RejectedComesBack(reg: Registry, name: string, e: Envelope, queue: string, db: Db<Stored>, id: nat)
    requires KnowsAll(reg, e) && Knows(reg, RedeliveryStamp) && id < db.nextId
    ensures var after := Redelivered(db, id, queue, Encoded(Redelivery(e)), Redelivery(e).DelayMs());
      && id !in after.rows && db.nextId in after.rows
      && var d := Delivered(reg, name, after.rows[db.nextId], db.nextId);
         && d.Some? && d.value.message == e.message
         && d.value.RetryCount() == e.RetryCount() + 1
         && (forall c :: c !in NON_SENDABLE && c != RedeliveryStamp ==> d.value.Last(c) == e.Last(c))
  {
    RedeliveryStamps(e);
    RedeliveryIsKnown(reg, e);
    var copy, count := Redelivery(e), e.RetryCount() + 1;
    MovedRow(db, id, queue, Encoded(copy), copy.DelayMs());
    hide Encoded, Envelope.Last, KnowsAll, Knows, Redelivery, Decimal, ParseId, Redelivered, Inserted, Envelope.DelayMs;
    SentIsDelivered(reg, name, copy, queue, db);
    var d := Delivered(reg, name, Inserted(db, queue, Encoded(copy), copy.DelayMs()).rows[db.nextId], db.nextId);
    hide Delivered;
    CountIs(d.value, count);
    hide Envelope.RetryCount;
  }

  lemma MovedRow(db: Db<Stored>, id: nat, queue: string, body: Stored, delay: real)
    requires id < db.nextId
    ensures var after := Redelivered(db, id, queue, body, delay);
      && id !in after.rows && db.nextId in after.rows && db.nextId in Inserted(db, queue, body, delay).rows
      && after.rows[db.nextId] == Inserted(db, queue, body, delay).rows[db.nextId]
  {
  }

  lemma CountIs(e: Envelope, n: nat)
    requires e.Last(RedeliveryStamp) == Some(NewRedelivery(n))
    ensures e.RetryCount() == n
  {
    hide Envelope.Last;
  }

  lemma RedeliveryStamps(e: Envelope)
    ensures Redelivery(e).message == e.message
    ensures Redelivery(e).Last(RedeliveryStamp) == Some(NewRedelivery(e.RetryCount() + 1))
    ensures forall c :: c != RedeliveryStamp ==> Redelivery(e).Last(c) == e.Last(c)
  {
    hide LastOf, Drop;
    Append(e.WithoutAll(RedeliveryStamp).stamps, NewRedelivery(e.RetryCount() + 1));
    forall c | c != RedeliveryStamp ensures e.WithoutAll(RedeliveryStamp).Last(c) == e.Last(c) {
      DropKeepsLast(e.stamps, {RedeliveryStamp}, c);
    }
  }

  lemma RedeliveryIsKnown(reg: Registry, e: Envelope)
    requires KnowsAll(reg, e) && Knows(reg, RedeliveryStamp)
    ensures KnowsAll(reg, Redelivery(e))
  {
    hide Drop, LastOf, Knows;
    forall x | x in Redelivery(e).stamps && x.cls !in NON_SENDABLE ensures Knows(reg, x.cls) {
      DropMembers(e.stamps, {RedeliveryStamp}, x);
    }
  }
}
