/**
 * The Redis Streams transport object. Each method, run without interruption, is a run of the
 * machine's steps: `world` is the machine's state, and `Valid` ties it to the real fields.
 */
module RedisTransport {
  import opened Common
  import opened RedisRuns

  /** The machine's invariants. */
  ghost predicate Healthy(s: State) { Sound(s) && DelaysMatch(s) && DelaysAlone(s) }

  lemma StepIsHealthy(s: State, ev: Event)
    requires Healthy(s) && !BreaksOff(ev)
    ensures Healthy(Step(s, ev))
  {
    hide Sound, DelaysMatch, DelaysAlone, Step;
    StepKeeps(s, ev);
    StepKeepsDelays(s, ev);
  }

  /** The server the transports share; `copies` numbers the payloads written to it. */
  class Redis {
    var data: Server
    var copies: nat
    ghost var world: State

    ghost predicate Valid()
      reads this
    {
      world.server == data && world.log.copies == copies && Healthy(world)
    }

    constructor (now: real)
      ensures Valid() && world == State(Server(map[], 0, 0, map[], map[], now), map[], map[], 0,
                                        Log(0, 0, map[], map[], map[], map[], map[], {}))
    {
      data, copies := Server(map[], 0, 0, map[], map[], now), 0;
      world := State(Server(map[], 0, 0, map[], map[], now), map[], map[], 0,
                     Log(0, 0, map[], map[], map[], map[], map[], {}));
      new;
      InitialIsSound(world);
      hide Sound, DelaysMatch, DelaysAlone;
    }
  }

  /** The appends that end a promotion. */
  ghost function AppendAll(s: State, name: string): State
    decreases if name in s.consumers then |s.consumers[name].promoting| else 0
  {
    if name !in s.consumers || s.consumers[name].promoting == [] then s else AppendAll(Promoted(s, name), name)
  }

  function Appends(name: string, n: nat): seq<Event> { if n == 0 then [] else [AppendOne(name)] + Appends(name, n - 1) }

  lemma {:induction false} AppendAllIsRun(s: State, name: string)
    requires name in s.consumers
    ensures AppendAll(s, name) == Run(s, Appends(name, |s.consumers[name].promoting|))
    decreases |s.consumers[name].promoting|
  {
    var n := |s.consumers[name].promoting|;
    if n > 0 {
      AppendAllIsRun(Promoted(s, name), name);
      assert Appends(name, n)[1..] == Appends(name, n - 1);
    }
  }

  /** A finished promotion has appended each popped member once, in the popped order. */
  lemma {:induction false} AppendAllAppends(s: State, name: string)
    requires name in s.consumers
    ensures var t, order := AppendAll(s, name), s.consumers[name].promoting;
      && t.server.lastId == s.server.lastId + |order|
      && name in t.consumers && t.consumers[name] == s.consumers[name].(promoting := [])
      && (forall id: nat :: s.server.lastId < id <= s.server.lastId + |order| ==>
            id in t.server.stream && t.server.stream[id] == order[id - s.server.lastId - 1])
      && (forall id: nat :: id <= s.server.lastId && id in s.server.stream ==>
            id in t.server.stream && t.server.stream[id] == s.server.stream[id])
    decreases |s.consumers[name].promoting|
  {
    var order := s.consumers[name].promoting;
    if order != [] {
      AppendAllAppends(Promoted(s, name), name);
    }
  }

  class RedisStreamsTransport {
    const redis: Redis
    const name: string
    var batch: seq<nat>
    var promoting: seq<nat>
    var inFlight: set<nat>
    var drainWaiters: nat
    var closing: bool

    ghost predicate Valid()
      reads this, redis
    {
      && redis.Valid()
      && name in redis.world.consumers
      && redis.world.consumers[name] == Consumer(batch, promoting, inFlight, closing)
    }

    constructor (redis: Redis, name: string)
      requires redis.Valid() && name in redis.world.consumers
      requires redis.world.consumers[name] == Consumer([], [], {}, false)
      ensures Valid() && this.redis == redis && this.name == name
    {
      hide Healthy;
      this.redis, this.name := redis, name;
      batch, promoting, inFlight, drainWaiters, closing := [], [], {}, 0, false;
    }

    /** `enqueue` */
    method Enqueue(ghost c: Content, delay: real)
      requires redis.world.server == redis.data && redis.world.log.copies == redis.copies
      modifies redis
      ensures redis.world == RedisRuns.Enqueue(old(redis.world), c, delay)
      ensures redis.data == redis.world.server && redis.copies == redis.world.log.copies
      ensures unchanged(this)
    {
      var copy := redis.copies;
      redis.copies := copy + 1;
      if delay > 0.0 {
        redis.data := redis.data.(delayed := redis.data.delayed[copy := redis.data.clock + delay]);
      } else {
        var id := redis.data.lastId + 1;
        redis.data := redis.data.(stream := redis.data.stream[id := copy], lastId := id);
      }
      redis.world := RedisRuns.Enqueue(redis.world, c, delay);
    }

    /** `acknowledge`: XACK, then XDEL. */
    method Acknowledge(id: nat)
      requires redis.world.server == redis.data && redis.world.log.copies == redis.copies
      modifies redis
      ensures redis.world == XDel(XAck(old(redis.world), id), id)
      ensures redis.data == redis.world.server && redis.copies == redis.world.log.copies
    {
      redis.data := redis.data.(pel := redis.data.pel - {id});
      redis.data := redis.data.(stream := redis.data.stream - {id});
      redis.world := XDel(XAck(redis.world, id), id);
    }

    /** `drainDueDelayed`: the script pops every due member, then they are appended one by one. */
    method DrainDueDelayed(order: seq<nat>)
      requires Valid() && CanPop(redis.world, name, order)
      modifies this, redis
      ensures Valid() && promoting == []
      ensures redis.world == AppendAll(Popped(old(redis.world), name, order), name)
      ensures batch == old(batch) && inFlight == old(inFlight) && closing == old(closing)
    {
      hide Healthy;
      ghost var before := redis.world;
      StepIsHealthy(before, PopDue(name, order));
      PopEffect(before, name, order);
      hide Step, Popped, CanPop, AppendAll;
      redis.data := redis.data.(delayed := map c | c in redis.data.delayed && c !in order :: redis.data.delayed[c]);
      promoting := order;
      redis.world := Popped(before, name, order);
      ghost var popped := redis.world;
      while promoting != []
        invariant Valid()
        invariant AppendAll(redis.world, name) == AppendAll(popped, name)
        invariant batch == old(batch) && inFlight == old(inFlight) && closing == old(closing)
        decreases |promoting|
      {
        AppendOneOf();
      }
      NothingToAppend(redis.world, name);
    }

    /** One round of the loop above. */
    method AppendOneOf()
      requires Valid() && promoting != []
      modifies this, redis
      ensures Valid() && redis.world == Promoted(old(redis.world), name)
      ensures AppendAll(redis.world, name) == AppendAll(old(redis.world), name)
      ensures promoting == old(promoting)[1..]
      ensures batch == old(batch) && inFlight == old(inFlight) && closing == old(closing)
    {
      hide Healthy;
      ghost var before := redis.world;
      StepIsHealthy(before, AppendOne(name));
      PromotedNext(before, name);
      hide Step, AppendAll;
      var id := redis.data.lastId + 1;
      redis.data := redis.data.(stream := redis.data.stream[id := promoting[0]], lastId := id);
      promoting := promoting[1..];
      redis.world := Promoted(before, name);
    }

    method Send(decodes: bool, delay: real) returns (sent: bool)
      requires Valid()
      modifies redis
      ensures Valid() && redis.world == Sent(old(redis.world), name, decodes, delay)
      ensures sent <==> !closing
    {
      sent := !closing;
      if sent {
        ghost var before := redis.world;
        StepIsHealthy(before, Event.Send(name, decodes, delay));
        hide Healthy, RedisRuns.Enqueue;
        Enqueue(Content(before.log.messages, decodes), delay);
      }
    }

    /** The rest of one entry's turn in `get`: deliver it, or discard it; nothing once closing. */
    method YieldNext(decodes: bool) returns (stopped: bool)
      requires Valid() && batch != []
      requires batch[0] in redis.world.log.held
      requires redis.world.log.content[redis.world.log.held[batch[0]]].decodes == decodes
      modifies this, redis
      ensures Valid() && stopped == old(closing)
      ensures redis.world ==
        if closing then old(redis.world)
        else if decodes then Step(old(redis.world), Event.Yield(name))
        else Run(old(redis.world), [Event.Yield(name), Advance(old(redis.world).nextTask)])
    {
      hide Healthy, Step, Run;
      stopped := closing;
      if stopped {
        return;
      }
      ghost var before := redis.world;
      HeldIsKnown(before, batch[0]);
      StepIsHealthy(before, Event.Yield(name));
      YieldEffect(before, name);
      var id := batch[0];
      batch := batch[1..];
      if decodes {
        inFlight := inFlight + {id};
        redis.world := Step(before, Event.Yield(name));
      } else {
        StepIsHealthy(Step(before, Event.Yield(name)), Advance(before.nextTask));
        RunOfSteps(before, [Event.Yield(name), Advance(before.nextTask)]);
        redis.data := redis.data.(pel := redis.data.pel - {id});
        redis.world := Run(before, [Event.Yield(name), Advance(before.nextTask)]);
      }
    }

    /** `releaseInFlight` */
    method Release(id: nat) returns (woken: nat)
      modifies this
      ensures inFlight == old(inFlight) - {id} && batch == old(batch) && promoting == old(promoting)
      ensures closing == old(closing)
      ensures woken == (if inFlight == {} then old(drainWaiters) else 0)
      ensures drainWaiters == if inFlight == {} then 0 else old(drainWaiters)
    {
      inFlight := inFlight - {id};
      woken := 0;
      if inFlight == {} {
        woken, drainWaiters := drainWaiters, 0;
      }
    }

    /** Ack of any id seen: release, XACK, XDEL. */
    method Ack(id: nat)
      requires Valid() && id in redis.world.log.held
      modifies this, redis
      ensures Valid()
      ensures redis.world == Run(old(redis.world), Settled(Event.Ack(name, id), old(redis.world).nextTask, 2))
      ensures inFlight == old(inFlight) - {id} && drainWaiters == if inFlight == {} then 0 else old(drainWaiters)
    {
      hide Run, Settled, Healthy;
      ghost var before := redis.world;
      ghost var n := before.nextTask;
      SettledIsHealthy(before, Event.Ack(name, id), n, 2);
      AckRun(before, name, id);
      var woken := Release(id);
      Acknowledge(id);
      redis.world := Run(before, Settled(Event.Ack(name, id), n, 2));
    }

    /** Reject of a delivery of this instance: release, store the copy, then XACK and XDEL the original. */
    method Reject(id: nat, delay: real) returns (settled: bool)
      requires Valid() && id in redis.world.log.held
      modifies this, redis
      ensures Valid() && settled == (id in old(inFlight))
      ensures redis.world ==
        if !settled then old(redis.world)
        else Run(old(redis.world), Settled(Event.Reject(name, id, delay), old(redis.world).nextTask, 3))
      ensures inFlight == old(inFlight) - {id}
      ensures drainWaiters == if settled && inFlight == {} then 0 else old(drainWaiters)
    {
      hide Run, Settled, Healthy;
      settled := id in inFlight;
      if !settled {
        return;
      }
      ghost var before := redis.world;
      ghost var n := before.nextTask;
      SettledIsHealthy(before, Event.Reject(name, id, delay), n, 3);
      RejectRun(before, name, id, delay);
      HeldIsKnown(before, id);
      var woken := Release(id);
      ghost var c := Content(before.log.content[before.log.held[id]].message, true);
      EnqueueEffect(before, c, delay);
      hide RedisRuns.Enqueue;
      Enqueue(c, delay);
      Acknowledge(id);
      redis.world := Run(before, Settled(Event.Reject(name, id, delay), n, 3));
    }

    method Close() returns (parked: bool)
      requires Valid()
      modifies this, redis
      ensures Valid() && closing && redis.world == Step(old(redis.world), Event.Close(name))
      ensures parked <==> !old(closing) && inFlight != {}
      ensures drainWaiters == old(drainWaiters) + if parked then 1 else 0
    {
      hide Healthy;
      StepIsHealthy(redis.world, Event.Close(name));
      redis.world := Step(redis.world, Event.Close(name));
      parked := !closing && inFlight != {};
      closing := true;
      if parked {
        drainWaiters := drainWaiters + 1;
      }
    }
  }

  /** A settle and the `k` commands of its task. */
  function Settled(first: Event, n: nat, k: nat): seq<Event> {
    [first] + (if k == 2 then [Advance(n), Advance(n)] else [Advance(n), Advance(n), Advance(n)])
  }

  lemma RunOfSteps(s: State, events: seq<Event>)
    requires 2 <= |events| <= 4
    ensures |events| == 2 ==> Run(s, events) == Step(Step(s, events[0]), events[1])
    ensures |events| == 3 ==> Run(s, events) == Step(Step(Step(s, events[0]), events[1]), events[2])
    ensures |events| == 4 ==> Run(s, events) == Step(Step(Step(Step(s, events[0]), events[1]), events[2]), events[3])
  {
    hide Step;
    var a := Step(s, events[0]);
    var b := Step(a, events[1]);
    assert Run(a, events[1..]) == Run(b, events[1..][1..]) && events[1..][1..] == events[2..];
    if |events| == 2 {
      assert Run(b, events[2..]) == b;
    } else {
      var c := Step(b, events[2]);
      assert Run(b, events[2..]) == Run(c, events[2..][1..]) && events[2..][1..] == events[3..];
      if |events| == 3 {
        assert Run(c, events[3..]) == c;
      } else {
        var d := Step(c, events[3]);
        assert Run(c, events[3..]) == Run(d, events[3..][1..]) && events[3..][1..] == [];
        assert Run(d, []) == d;
      }
    }
  }

  lemma PopEffect(s: State, name: string, order: seq<nat>)
    requires CanPop(s, name, order)
    ensures Step(s, PopDue(name, order)) == Popped(s, name, order)
    ensures Popped(s, name, order) ==
      s.(consumers := s.consumers[name := s.consumers[name].(promoting := order)],
         server := s.server.(delayed := map c | c in s.server.delayed && c !in order :: s.server.delayed[c]))
  {
  }

  lemma PromotedNext(s: State, name: string)
    requires name in s.consumers && s.consumers[name].promoting != []
    ensures AppendAll(s, name) == AppendAll(Promoted(s, name), name)
    ensures Step(s, AppendOne(name)) == Promoted(s, name)
  {
    hide Promoted;
  }

  lemma NothingToAppend(s: State, name: string)
    requires name in s.consumers && s.consumers[name].promoting == []
    ensures AppendAll(s, name) == s
  {
  }

  lemma YieldEffect(s: State, name: string)
    requires Healthy(s) && name in s.consumers && s.consumers[name].batch != [] && !s.consumers[name].closing
    requires s.consumers[name].batch[0] in s.log.held && s.log.held[s.consumers[name].batch[0]] in s.log.content
    ensures var c, id, n := s.consumers[name], s.consumers[name].batch[0], s.nextTask;
      var t := Step(s, Yield(name));
      if s.log.content[s.log.held[id]].decodes then
        t == With(s, name, c.(batch := c.batch[1..], inFlight := c.inFlight + {id}))
      else
        Step(t, Advance(n)) ==
          s.(consumers := s.consumers[name := c.(batch := c.batch[1..])], nextTask := n + 1,
             server := s.server.(pel := s.server.pel - {id}))
  {
    NextTaskIsFree(s);
    hide Healthy;
    if !s.log.content[s.log.held[s.consumers[name].batch[0]]].decodes {
      DiscardEffect(s, name);
    }
    hide Advanced;
  }

  /** An undecodable entry leaves the batch for a task, whose one command acks it. */
  lemma DiscardEffect(s: State, name: string)
    requires name in s.consumers && s.consumers[name].batch != [] && !s.consumers[name].closing
    requires s.nextTask !in s.tasks
    requires s.consumers[name].batch[0] in s.log.held && s.log.held[s.consumers[name].batch[0]] in s.log.content
    requires !s.log.content[s.log.held[s.consumers[name].batch[0]]].decodes
    ensures var c, id, n := s.consumers[name], s.consumers[name].batch[0], s.nextTask;
      Advanced(Yielded(s, name), n) ==
        s.(consumers := s.consumers[name := c.(batch := c.batch[1..])], nextTask := n + 1,
           server := s.server.(pel := s.server.pel - {id}))
  {
    var n, id := s.nextTask, s.consumers[name].batch[0];
    var t := Yielded(s, name);
    assert t.tasks == s.tasks[n := Task(name, id, Discarding)] && t.log == s.log;
    assert t.tasks - {n} == s.tasks;
    hide Yielded;
  }

  lemma NextTaskIsFree(s: State)
    requires Healthy(s)
    ensures s.nextTask !in s.tasks
  {
    hide DelaysMatch, DelaysAlone, BooksMatch, AllDeliverable, Newest;
  }

  /** No settle breaks off a promotion, so the invariants hold after it. */
  lemma {:induction false} RunKeepsValid(s: State, events: seq<Event>)
    requires Healthy(s)
    requires forall i :: 0 <= i < |events| ==> !BreaksOff(events[i])
    ensures Healthy(Run(s, events))
    decreases |events|
  {
    hide Healthy, Step;
    if events != [] {
      StepIsHealthy(s, events[0]);
      RunKeepsValid(Step(s, events[0]), events[1..]);
    }
  }

  lemma SettledIsHealthy(s: State, first: Event, n: nat, k: nat)
    requires Healthy(s) && !BreaksOff(first)
    ensures Healthy(Run(s, Settled(first, n, k)))
  {
    hide Healthy, Run;
    RunKeepsValid(s, Settled(first, n, k));
  }

  /** The first step of a settle, and the commands it leaves to run. */
  lemma SettleEffect(s: State, name: string, id: nat, delay: real)
    requires name in s.consumers && id in s.log.held
    ensures var a, n := Step(s, Event.Ack(name, id)), s.nextTask;
      && n in a.tasks && a.tasks[n] == Task(name, id, Acking) && a.server == s.server
      && a.consumers == Released(s, name, id).consumers
      && a.log == s.log.(acked := a.log.acked)
    ensures id in s.consumers[name].inFlight ==>
      var a, n := Step(s, Event.Reject(name, id, delay)), s.nextTask;
      && n in a.tasks && a.tasks[n] == Task(name, id, Moving(delay)) && a.server == s.server && a.log == s.log
      && a.consumers == Released(s, name, id).consumers
  {
  }

  /** The commands of a task, one by one. */
  lemma CommandEffect(s: State, n: nat)
    requires n in s.tasks && s.tasks[n].id in s.log.held && s.log.held[s.tasks[n].id] in s.log.content
    ensures var t, id := Step(s, Advance(n)), s.tasks[n].id;
      match s.tasks[n].work
      case Moving(delay) =>
        t == RedisRuns.Enqueue(s, Content(s.log.content[s.log.held[id]].message, true), delay)
             .(tasks := s.tasks[n := s.tasks[n].(work := Acking)])
      case Acking => t == XAck(s, id).(tasks := s.tasks[n := s.tasks[n].(work := Deleting)])
      case Deleting => t == XDel(s, id).(tasks := s.tasks - {n})
      case Discarding => t == XAck(s, id).(tasks := s.tasks - {n})
  {
    hide RedisRuns.Enqueue;
  }

  lemma HeldIsKnown(s: State, id: nat)
    requires Healthy(s) && id in s.log.held
    ensures s.log.held[id] in s.log.content && id <= s.server.lastId
  {
    hide DelaysMatch, DelaysAlone, TasksMatch, AllDeliverable;
  }

  lemma AckRun(s: State, name: string, id: nat)
    requires Healthy(s) && name in s.consumers && id in s.log.held
    ensures var t := Run(s, Settled(Event.Ack(name, id), s.nextTask, 2));
      && t.server == s.server.(pel := s.server.pel - {id}, stream := s.server.stream - {id})
      && t.consumers == s.consumers[name := s.consumers[name].(inFlight := s.consumers[name].inFlight - {id})]
      && t.log.copies == s.log.copies
  {
    var n := s.nextTask;
    RunOfSteps(s, Settled(Event.Ack(name, id), n, 2));
    HeldIsKnown(s, id);
    SettleEffect(s, name, id, 0.0);
    hide Run, Healthy, Step;
    var a := Step(s, Event.Ack(name, id));
    CommandEffect(a, n);
    CommandEffect(Step(a, Advance(n)), n);
  }

  /** An enqueue on the server alone. */
  function Stored(server: Server, copy: nat, delay: real): Server {
    if delay > 0.0 then server.(delayed := server.delayed[copy := server.clock + delay])
    else server.(stream := server.stream[server.lastId + 1 := copy], lastId := server.lastId + 1)
  }

  lemma EnqueueEffect(s: State, c: Content, delay: real)
    ensures var t := RedisRuns.Enqueue(s, c, delay);
      && t.server == Stored(s.server, s.log.copies, delay) && t.consumers == s.consumers
      && t.log.copies == s.log.copies + 1
      && t.tasks == s.tasks
      && forall id :: id in s.log.held && id <= s.server.lastId && s.log.held[id] in s.log.content ==>
           id in t.log.held && t.log.held[id] == s.log.held[id] && t.log.held[id] in t.log.content
  {
  }

  lemma RejectRun(s: State, name: string, id: nat, delay: real)
    requires Healthy(s) && name in s.consumers && id in s.consumers[name].inFlight && id in s.log.held
    ensures var t := Run(s, Settled(Event.Reject(name, id, delay), s.nextTask, 3));
      var stored := Stored(s.server, s.log.copies, delay);
      && t.server == stored.(pel := stored.pel - {id}, stream := stored.stream - {id})
      && t.log.copies == s.log.copies + 1
      && t.consumers == s.consumers[name := s.consumers[name].(inFlight := s.consumers[name].inFlight - {id})]
  {
    var n := s.nextTask;
    RunOfSteps(s, Settled(Event.Reject(name, id, delay), n, 3));
    HeldIsKnown(s, id);
    SettleEffect(s, name, id, delay);
    hide Run, Healthy, Step;
    var a := Step(s, Event.Reject(name, id, delay));
    CommandEffect(a, n);
    EnqueueEffect(a, Content(a.log.content[a.log.held[id]].message, true), delay);
    hide RedisRuns.Enqueue, Stored;
    var b := Step(a, Advance(n));
    CommandEffect(b, n);
    CommandEffect(Step(b, Advance(n)), n);
  }
}
