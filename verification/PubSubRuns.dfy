/**
 * Google Pub/Sub consumers over one subscription, which keeps a message, and may push it again to
 * anyone, until an ack for it arrives. Acks are buffered by the client and lost with it.
 */
module PubSubRuns {
  import opened Common

  /** `publishing`: deliveries rejected whose copy is on its way; `acks`: acks not yet flushed. */
  datatype Client = Client(buffer: seq<nat>, inFlight: set<nat>, publishing: set<nat>, acks: set<nat>, closing: bool)

  /** Messages are numbered as they are published; `stored` are those not acked yet. */
  datatype State = State(stored: set<nat>, clients: map<string, Client>, log: Log)

  /** A record of the run: what each published message carried, the newest copy of each, the copies someone acked. */
  datatype Log = Log(messages: nat, copies: nat, content: map<nat, Content>, latest: map<nat, nat>, acked: set<nat>)

  datatype Event =
    | Start(name: string)
    | Send(name: string, decodes: bool)
    | Push(name: string, copy: nat)
    | Take(name: string)
    | Ack(name: string, copy: nat)
    | Reject(name: string, copy: nat)
    | Publish(name: string, copy: nat)
    | Fail(name: string, copy: nat)
    | Flush(name: string, copy: nat)
    | Close(name: string)
    | Crash(name: string)

  predicate Initial(s: State) { s == State({}, map[], Log(0, 0, map[], map[], {})) }

  function With(s: State, name: string, c: Client): State { s.(clients := s.clients[name := c]) }

  function Published(s: State, c: Content): State {
    var copy := s.log.copies;
    s.(stored := s.stored + {copy},
       log := s.log.(messages := if c.message < s.log.messages then s.log.messages else c.message + 1,
                      copies := copy + 1, content := s.log.content[copy := c],
                      latest := s.log.latest[c.message := copy]))
  }

  /** A poison message is acked at once, any other enters the registry. */
  function Taken(s: State, name: string): State
    requires name in s.clients
  {
    var c := s.clients[name];
    if c.buffer == [] || c.closing || c.buffer[0] !in s.log.content then s
    else if s.log.content[c.buffer[0]].decodes then
      With(s, name, c.(buffer := c.buffer[1..], inFlight := c.inFlight + {c.buffer[0]}))
    else With(s, name, c.(buffer := c.buffer[1..], acks := c.acks + {c.buffer[0]}))
  }

  /** `redeliverThenAck`: the original is acked once its copy is published. */
  function Moved(s: State, name: string, copy: nat): State
    requires name in s.clients
  {
    var c := s.clients[name];
    if copy !in c.publishing || copy !in s.log.content then s
    else
      With(Published(s, Content(s.log.content[copy].message, true)), name,
           c.(publishing := c.publishing - {copy}, acks := c.acks + {copy}))
  }

  function Step(s: State, ev: Event): State {
    if ev.name !in s.clients then if ev.Start? then With(s, ev.name, Client([], {}, {}, {}, false)) else s
    else
      var name, c := ev.name, s.clients[ev.name];
      match ev
      case Start(_) => s
      case Send(_, decodes) => if c.closing then s else Published(s, Content(s.log.messages, decodes))
      case Push(_, copy) => if copy in s.stored then With(s, name, c.(buffer := c.buffer + [copy])) else s
      case Take(_) => Taken(s, name)
      case Ack(_, copy) =>
        if copy !in c.inFlight then s
        else
          With(s, name, c.(inFlight := c.inFlight - {copy}, acks := c.acks + {copy}))
          .(log := s.log.(acked := s.log.acked + {copy}))
      case Reject(_, copy) =>
        if copy !in c.inFlight then s
        else With(s, name, c.(inFlight := c.inFlight - {copy}, publishing := c.publishing + {copy}))
      case Publish(_, copy) => Moved(s, name, copy)
      case Fail(_, copy) => With(s, name, c.(publishing := c.publishing - {copy}))
      case Flush(_, copy) =>
        if copy in c.acks then With(s, name, c.(acks := c.acks - {copy})).(stored := s.stored - {copy}) else s
      case Close(_) => With(s, name, c.(closing := true))
      case Crash(_) => s.(clients := s.clients - {name})
  }

  function Run(s: State, events: seq<Event>): State
    decreases |events|
  {
    if events == [] then s else Run(Step(s, events[0]), events[1..])
  }

  predicate Newest(log: Log, copy: nat) {
    copy in log.content && log.content[copy].message in log.latest && log.latest[log.content[copy].message] == copy
  }

  /** An ack may be flushed for a copy that was acked, superseded, or never decoded. */
  predicate Disposable(log: Log, copy: nat) {
    copy in log.content && (copy in log.acked || !Newest(log, copy) || !log.content[copy].decodes)
  }

  ghost predicate BooksMatch(s: State) {
    && (forall c: nat :: c in s.log.content <==> c < s.log.copies)
    && (forall m: nat :: m in s.log.latest <==> m < s.log.messages)
    && (forall c :: c in s.log.content ==> s.log.content[c].message < s.log.messages)
    && (forall m :: m in s.log.latest ==>
          s.log.latest[m] in s.log.content && s.log.content[s.log.latest[m]].message == m)
  }

  ghost predicate ClientsMatch(s: State) {
    forall i :: i in s.clients ==>
      && (forall c :: c in s.clients[i].inFlight + s.clients[i].publishing ==>
            c in s.log.content && s.log.content[c].decodes)
      && (forall c :: c in s.clients[i].acks ==> Disposable(s.log, c))
  }

  ghost predicate AllStored(s: State) {
    forall c :: Newest(s.log, c) && s.log.content[c].decodes ==> c in s.log.acked || c in s.stored
  }

  ghost predicate Sound(s: State) { BooksMatch(s) && ClientsMatch(s) && AllStored(s) }

  lemma PublishedKeeps(s: State, c: Content)
    requires Sound(s) && c.message <= s.log.messages
    ensures Sound(Published(s, c))
    ensures forall x :: x in s.log.content && (Disposable(s.log, x) || s.log.content[x].message == c.message) ==>
      Disposable(Published(s, c).log, x)
  {
    var t := Published(s, c);
    assert BooksMatch(t) by { hide ClientsMatch, AllStored; }
    forall x: nat | x in s.log.content && (Disposable(s.log, x) || s.log.content[x].message == c.message)
      ensures Disposable(t.log, x) {}
    forall x: nat | Newest(t.log, x) && t.log.content[x].decodes ensures x in t.log.acked || x in t.stored {
      if x != s.log.copies { assert Newest(s.log, x); }
    }
    hide Newest, Disposable, AllStored;
  }

  /** One client's registers change, within what its copies allow. */
  lemma WithKeeps(s: State, name: string, c: Client)
    requires Sound(s)
    requires forall x :: x in c.inFlight + c.publishing ==> x in s.log.content && s.log.content[x].decodes
    requires forall x :: x in c.acks ==> Disposable(s.log, x)
    ensures Sound(With(s, name, c))
  {
    hide Newest, Disposable;
  }

  lemma MovedKeeps(s: State, name: string, copy: nat)
    requires Sound(s) && name in s.clients
    ensures Sound(Moved(s, name, copy))
  {
    var c := s.clients[name];
    if copy in c.publishing && copy in s.log.content {
      var k := Content(s.log.content[copy].message, true);
      PublishedKeeps(s, k);
      var t := Published(s, k);
      assert forall x :: x in s.log.content ==> x in t.log.content && t.log.content[x] == s.log.content[x];
      hide Newest, Disposable, BooksMatch, AllStored, Published;
      WithKeeps(t, name, c.(publishing := c.publishing - {copy}, acks := c.acks + {copy}));
    }
  }

  lemma AckKeeps(s: State, name: string, copy: nat)
    requires Sound(s) && name in s.clients && copy in s.clients[name].inFlight
    ensures Sound(Step(s, Ack(name, copy)))
  {
    var t := s.(log := s.log.(acked := s.log.acked + {copy}));
    assert forall x: nat :: Newest(t.log, x) == Newest(s.log, x);
    assert Sound(t);
    var c := s.clients[name];
    hide AllStored, BooksMatch, Newest;
    WithKeeps(t, name, c.(inFlight := c.inFlight - {copy}, acks := c.acks + {copy}));
  }

  lemma FlushKeeps(s: State, name: string, copy: nat)
    requires Sound(s) && name in s.clients && copy in s.clients[name].acks
    ensures Sound(Step(s, Flush(name, copy)))
  {
    assert Disposable(s.log, copy);
    var t := s.(stored := s.stored - {copy});
    assert Sound(t);
    hide AllStored, BooksMatch, Newest;
    WithKeeps(t, name, s.clients[name].(acks := s.clients[name].acks - {copy}));
  }

  lemma TakenKeeps(s: State, name: string)
    requires Sound(s) && name in s.clients
    ensures Sound(Taken(s, name))
  {
    var c := s.clients[name];
    if Taken(s, name) != s {
      hide BooksMatch, AllStored, Newest;
      if s.log.content[c.buffer[0]].decodes {
        WithKeeps(s, name, c.(buffer := c.buffer[1..], inFlight := c.inFlight + {c.buffer[0]}));
      } else {
        WithKeeps(s, name, c.(buffer := c.buffer[1..], acks := c.acks + {c.buffer[0]}));
      }
    }
  }

  /** The steps that only move ids between one client's registers. */
  lemma LocalKeeps(s: State, ev: Event)
    requires Sound(s) && ev.name in s.clients
    requires ev.Push? || ev.Reject? || ev.Fail? || ev.Close? || ev.Start?
    ensures Sound(Step(s, ev))
  {
    var name, c := ev.name, s.clients[ev.name];
    hide BooksMatch, AllStored, Newest, Disposable;
    match ev
    case Push(_, copy) => WithKeeps(s, name, c.(buffer := c.buffer + [copy]));
    case Reject(_, copy) =>
      if copy in c.inFlight {
        WithKeeps(s, name, c.(inFlight := c.inFlight - {copy}, publishing := c.publishing + {copy}));
      }
    case Fail(_, copy) => WithKeeps(s, name, c.(publishing := c.publishing - {copy}));
    case Close(_) => WithKeeps(s, name, c.(closing := true));
    case Start(_) =>
  }

  lemma StepKeeps(s: State, ev: Event)
    requires Sound(s)
    ensures Sound(Step(s, ev))
  {
    if ev.name !in s.clients {
      WithKeeps(s, ev.name, Client([], {}, {}, {}, false));
      hide Sound, With;
    } else {
      var name, c := ev.name, s.clients[ev.name];
      match ev
      case Send(_, decodes) => PublishedKeeps(s, Content(s.log.messages, decodes)); hide Published, Sound;
      case Take(_) => TakenKeeps(s, name); hide Taken, Sound;
      case Publish(_, copy) => MovedKeeps(s, name, copy); hide Moved, Sound;
      case Ack(_, copy) => if copy in c.inFlight { AckKeeps(s, name, copy); hide Sound, Step; }
      case Flush(_, copy) => if copy in c.acks { FlushKeeps(s, name, copy); hide Sound, Step; }
      case Crash(_) => hide Newest, Disposable;
      case _ => LocalKeeps(s, ev); hide Sound, Step;
    }
  }

  lemma {:induction false} RunKeeps(s: State, events: seq<Event>)
    requires Sound(s)
    ensures Sound(Run(s, events))
    decreases |events|
  {
    if events != [] {
      StepKeeps(s, events[0]);
      hide Sound, Step;
      RunKeeps(Step(s, events[0]), events[1..]);
    }
  }

  /**
   * At-least-once: whatever is pushed to whom and however often, and whichever clients die with
   * their buffered acks, the newest copy of a message sent as decodable stays in the subscription
   * until that very copy is acked.
   */
  lemma AtLeastOnce(s: State, events: seq<Event>, m: nat)
    requires Initial(s) && m < Run(s, events).log.messages
    ensures var t := Run(s, events);
      && m in t.log.latest && t.log.latest[m] in t.log.content && t.log.content[t.log.latest[m]].message == m
      && (t.log.content[t.log.latest[m]].decodes ==> t.log.latest[m] in t.log.acked || t.log.latest[m] in t.stored)
  {
    RunKeeps(s, events);
    var t := Run(s, events);
    hide Run;
    assert Newest(t.log, t.log.latest[m]);
  }
}
