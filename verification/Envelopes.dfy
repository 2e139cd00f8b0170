/**
 * Envelopes: a message and the stamps attached to it, in the order they were attached.
 * A stamp, like a message, is an instance of a class; the class is its runtime identity
 * and the only thing lookups compare.
 */
module Envelopes {
  import opened Common

  datatype Json =
    | Null
    | Bool(b: bool)
    | Num(n: real)
    | Str(s: string)
    | Arr(items: seq<Json>)
    | Obj(fields: map<string, Json>)

  /** Own enumerable properties; a property holding `undefined` is an absent key. */
  type Record = map<string, Json>

  /** The built-in stamp classes, and any other class; two user classes may share a name. */
  datatype Class =
    | BusNameStamp
    | SentStamp
    | ReceivedStamp
    | TransportMessageIdStamp
    | DelayStamp
    | RedeliveryStamp
    | HandledStamp
    | ErrorDetailsStamp
    | SentToFailureTransportStamp
    | UserClass(className: string, serial: nat)

  datatype Instance = Instance(cls: Class, data: Record)

  type Stamp = Instance

  function NewBusName(name: string): Stamp { Instance(BusNameStamp, map["busName" := Str(name)]) }

  function NewSent(senderClass: string, alias: string): Stamp {
    Instance(SentStamp, map["senderClass" := Str(senderClass), "senderAlias" := Str(alias)])
  }

  function NewReceived(name: string): Stamp { Instance(ReceivedStamp, map["transportName" := Str(name)]) }

  function NewMessageId(id: string): Stamp { Instance(TransportMessageIdStamp, map["id" := Str(id)]) }

  function NewDelay(ms: real): Stamp { Instance(DelayStamp, map["delayMs" := Num(ms)]) }

  function NewRedelivery(count: nat): Stamp { Instance(RedeliveryStamp, map["retryCount" := Num(count as real)]) }

  function NewHandled(result: Json, handler: string): Stamp {
    Instance(HandledStamp, map["result" := result, "handlerName" := Str(handler)])
  }

  function NewErrorDetails(cls: string, text: string): Stamp {
    Instance(ErrorDetailsStamp, map["exceptionClass" := Str(cls), "exceptionMessage" := Str(text)])
  }

  function NewSentToFailure(origin: string): Stamp {
    Instance(SentToFailureTransportStamp, map["originalReceiverName" := Str(origin)])
  }

  function TextOf(s: Instance, field: string): string {
    if field in s.data && s.data[field].Str? then s.data[field].s else ""
  }

  function NumberOf(s: Instance, field: string): real {
    if field in s.data && s.data[field].Num? then s.data[field].n else 0.0
  }

  /** The stamps whose class is not in `away`, order kept. */
  function Drop(stamps: seq<Stamp>, away: set<Class>): seq<Stamp> {
    if stamps == [] then []
    else
      var rest, s := Drop(stamps[..|stamps| - 1], away), stamps[|stamps| - 1];
      if s.cls in away then rest else rest + [s]
  }

  /** The stamps whose class is in `kept`, order kept. */
  function Only(stamps: seq<Stamp>, kept: set<Class>): seq<Stamp> {
    if stamps == [] then []
    else
      var rest, s := Only(stamps[..|stamps| - 1], kept), stamps[|stamps| - 1];
      if s.cls in kept then rest + [s] else rest
  }

  /** The most recently attached stamp of class `c`. */
  function LastOf(stamps: seq<Stamp>, c: Class): Option<Stamp> {
    if stamps == [] then None
    else if stamps[|stamps| - 1].cls == c then Some(stamps[|stamps| - 1])
    else LastOf(stamps[..|stamps| - 1], c)
  }

  datatype Envelope = Envelope(message: Instance, stamps: seq<Stamp>) {

    function With(more: seq<Stamp>): Envelope { Envelope(message, stamps + more) }

    function WithoutAll(c: Class): Envelope { Envelope(message, Drop(stamps, {c})) }

    function Last(c: Class): Option<Stamp> { LastOf(stamps, c) }

    function AllOf(c: Class): seq<Stamp> { Only(stamps, {c}) }

    /** `last(RedeliveryStamp)?.retryCount ?? 0` */
    function RetryCount(): nat {
      match Last(RedeliveryStamp)
      case None => 0
      case Some(s) => var n := NumberOf(s, "retryCount").Floor; if n < 0 then 0 else n
    }

    /** `last(DelayStamp)?.delayMs ?? 0` */
    function DelayMs(): real {
      match Last(DelayStamp)
      case None => 0.0
      case Some(s) => NumberOf(s, "delayMs")
    }

    /** The id `requireId` reads, if the envelope carries one. */
    function MessageId(): Option<string> {
      match Last(TransportMessageIdStamp)
      case None => None
      case Some(s) => Some(TextOf(s, "id"))
    }
  }

  // ---- Laws of filtering -------------------------------------------------------------

  /** Each lookup, one stamp later. */
  lemma Append(s: seq<Stamp>, x: Stamp)
    ensures forall away :: Drop(s + [x], away) == if x.cls in away then Drop(s, away) else Drop(s, away) + [x]
    ensures forall kept :: Only(s + [x], kept) == if x.cls in kept then Only(s, kept) + [x] else Only(s, kept)
    ensures forall c :: LastOf(s + [x], c) == if x.cls == c then Some(x) else LastOf(s, c)
  {
    assert (s + [x])[..|s + [x]| - 1] == s;
  }

  lemma Nothing()
    ensures forall away :: Drop([], away) == []
    ensures forall kept :: Only([], kept) == []
    ensures forall c :: LastOf([], c) == None
  {
  }

  lemma {:induction false} DropConcat(a: seq<Stamp>, b: seq<Stamp>, away: set<Class>)
    ensures Drop(a + b, away) == Drop(a, away) + Drop(b, away)
  {
    hide Drop, Only, LastOf;
    if b == [] {
      Nothing();
      assert a + b == a;
    } else {
      var init, x := b[..|b| - 1], b[|b| - 1];
      DropConcat(a, init, away);
      Append(a + init, x);
      Append(init, x);
      assert b == init + [x] && a + b == a + init + [x];
    }
  }

  lemma {:induction false} OnlyConcat(a: seq<Stamp>, b: seq<Stamp>, kept: set<Class>)
    ensures Only(a + b, kept) == Only(a, kept) + Only(b, kept)
  {
    hide Drop, Only, LastOf;
    if b == [] {
      Nothing();
      assert a + b == a;
    } else {
      var init, x := b[..|b| - 1], b[|b| - 1];
      OnlyConcat(a, init, kept);
      Append(a + init, x);
      Append(init, x);
      assert b == init + [x] && a + b == a + init + [x];
    }
  }

  /** Removing classes one after the other removes their union. */
  lemma {:induction false} DropDrop(s: seq<Stamp>, a: set<Class>, b: set<Class>)
    ensures Drop(Drop(s, a), b) == Drop(s, a + b)
  {
    hide Drop, Only, LastOf;
    if s == [] {
      Nothing();
    } else {
      var init, x := s[..|s| - 1], s[|s| - 1];
      DropDrop(init, a, b);
      Append(Drop(init, a), x);
      Append(init, x);
      assert s == init + [x];
    }
  }

  lemma {:induction false} DropKeepsLast(s: seq<Stamp>, away: set<Class>, c: Class)
    ensures LastOf(Drop(s, away), c) == if c in away then None else LastOf(s, c)
  {
    hide Drop, Only, LastOf;
    if s == [] {
      Nothing();
    } else {
      var init, x := s[..|s| - 1], s[|s| - 1];
      DropKeepsLast(init, away, c);
      Append(Drop(init, away), x);
      Append(init, x);
      assert s == init + [x];
    }
  }

  /** `last(c)` is the final element of `all(c)`. */
  lemma {:induction false} LastIsEndOfAll(s: seq<Stamp>, c: Class)
    ensures LastOf(s, c) == if Only(s, {c}) == [] then None else Some(Only(s, {c})[|Only(s, {c})| - 1])
  {
    if s != [] {
      LastIsEndOfAll(s[..|s| - 1], c);
    }
  }

  lemma {:induction false} DropNothing(s: seq<Stamp>, away: set<Class>)
    requires forall x :: x in s ==> x.cls !in away
    ensures Drop(s, away) == s
  {
    if s != [] {
      DropNothing(s[..|s| - 1], away);
    }
  }

  lemma {:induction false} DropMembers(s: seq<Stamp>, away: set<Class>, x: Stamp)
    ensures x in Drop(s, away) <==> x in s && x.cls !in away
  {
    if s != [] {
      DropMembers(s[..|s| - 1], away, x);
      assert s == s[..|s| - 1] + [s[|s| - 1]];
    }
  }
}
