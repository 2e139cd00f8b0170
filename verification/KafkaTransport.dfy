/**
 * The Kafka transport object: deliveries, publishing and commits. Each method, run without
 * interruption, is a run of the machine's steps: `world` is the machine's state, and `Valid`
 * ties it to the real fields. The buffer's wakers are in `WakeUps`.
 */
module KafkaTransport {
  import opened Common
  import opened KafkaRuns

  class Kafka {
    var data: Broker
    ghost var world: State

    ghost predicate Valid()
      reads this
    {
      world.broker == data && Tidy(world)
    }

    constructor (partitions: set<nat>)
      ensures Valid() && Initial(world) && Sound(world) && data.log.Keys == partitions
    {
      var log: map<nat, seq<Content>> := map p | p in partitions :: [];
      var committed: map<nat, nat> := map p | p in partitions :: 0;
      data := Broker(log, committed);
      world := State(Broker(log, committed), map[], map[], 0, Log(0, map[], {}));
      new;
      InitialIsSound(world);
      hide Sound;
    }
  }

  /** Where a tidy state's buffers, deliveries and settles point, there is a message. */
  lemma TidyExists(s: State)
    requires Tidy(s)
    ensures forall i, at :: i in s.instances && at in s.instances[i].inFlight ==> Exists(s.broker, at)
    ensures forall i :: CanPull(s, i) ==> Exists(s.broker, s.instances[i].buffer[0])
  {
    forall i, at | i in s.instances && at in s.instances[i].inFlight ensures Exists(s.broker, at) {
      assert Taken(s, i, at);
      TakenIsOld(s, i, at);
    }
    hide Tidy, Taken;
    forall i | CanPull(s, i) ensures Exists(s.broker, s.instances[i].buffer[0]) { HeadFits(s, i); }
  }

  datatype PullStep = Ended | Empty | Discarded(at: At) | Yield(at: At)

  class KafkaTransport {
    const kafka: Kafka
    const name: string
    var buffer: seq<At>
    var inFlight: set<At>
    var position: map<nat, nat>
    var drainWaiters: nat
    var closing: bool
    ghost var failed: set<At>

    ghost predicate Valid()
      reads this, kafka
    {
      && kafka.Valid()
      && name in kafka.world.instances
      && kafka.world.instances[name] == Instance(buffer, inFlight, position, closing, failed)
    }

    constructor (kafka: Kafka, name: string)
      requires kafka.Valid() && name in kafka.world.instances
      requires kafka.world.instances[name] == FRESH
      ensures Valid() && this.kafka == kafka && this.name == name
    {
      hide Tidy;
      this.kafka, this.name := kafka, name;
      buffer, inFlight, position, drainWaiters, closing, failed := [], {}, map[], 0, false, {};
    }

    /** `onMessage`: the consumer hands over the next message of an assigned partition. */
    method OnMessage(p: nat)
      requires Valid() && p in position && p in kafka.data.log && position[p] < |kafka.data.log[p]|
      modifies this, kafka
      ensures Valid() && kafka.world == Step(old(kafka.world), Fetch(name, p))
      ensures buffer == old(buffer) + [(p, old(position)[p])] && inFlight == old(inFlight)
      ensures old(Sound(kafka.world)) ==> Sound(kafka.world)
    {
      hide Sound, Tidy;
      if Sound(kafka.world) { StepKeeps(kafka.world, Fetch(name, p)); }
      StepKeepsTidy(kafka.world, Fetch(name, p));
      kafka.world := Step(kafka.world, Fetch(name, p));
      buffer := buffer + [(p, position[p])];
      position := position[p := position[p] + 1];
    }

    /** `producer.send` */
    method Publish(p: nat, c: Content)
      requires kafka.world.broker == kafka.data && p in kafka.data.log
      modifies kafka
      ensures kafka.world == Published(old(kafka.world), p, c) && kafka.data == kafka.world.broker
    {
      kafka.data := kafka.data.(log := kafka.data.log[p := kafka.data.log[p] + [c]]);
      kafka.world := Published(kafka.world, p, c);
    }

    /** `commit`: unconditionally one past the message. */
    method Commit(at: At)
      modifies kafka
      ensures kafka.data == Committed(old(kafka.data), at) && kafka.world == old(kafka.world)
    {
      kafka.data := kafka.data.(committed := kafka.data.committed[at.0 := at.1 + 1]);
    }

    /** `releaseInFlight` */
    method Release(at: At) returns (woken: nat)
      modifies this
      ensures inFlight == old(inFlight) - {at} && buffer == old(buffer) && position == old(position)
      ensures closing == old(closing) && failed == old(failed)
      ensures woken == (if inFlight == {} then old(drainWaiters) else 0)
      ensures drainWaiters == if inFlight == {} then 0 else old(drainWaiters)
    {
      inFlight := inFlight - {at};
      woken := 0;
      if inFlight == {} {
        woken, drainWaiters := drainWaiters, 0;
      }
    }

    /** One pass of the loop in `get`; unless it overtakes it keeps the machine's invariant. */
    method Pull(aborted: bool) returns (step: PullStep)
      requires Valid()
      modifies this, kafka
      ensures Valid()
      ensures old(Sound(kafka.world) && Prompt(kafka.world, Event.Pull(name))) ==> Sound(kafka.world)
      ensures step == Ended <==> aborted || closing
      ensures step == Empty <==> !aborted && !closing && old(buffer) == []
      ensures step.Ended? || step.Empty? ==> kafka.world == old(kafka.world)
      ensures step.Yield? ==>
        step.at == old(buffer)[0] && step.at in inFlight && kafka.world == Step(old(kafka.world), Event.Pull(name))
      ensures step.Discarded? ==>
        && step.at == old(buffer)[0]
        && kafka.world == Step(Step(old(kafka.world), Event.Pull(name)), Advance(old(kafka.world).nextTask, 0))
    {
      hide Sound, Tidy, Prompt;
      if aborted || closing {
        return Ended;
      }
      if buffer == [] {
        return Empty;
      }
      ghost var before := kafka.world;
      var at := buffer[0];
      ghost var next := Step(before, Event.Pull(name));
      PullEffect(before, name);
      StepKeepsTidy(before, Event.Pull(name));
      StepKeepsTidy(next, Advance(before.nextTask, 0));
      if Sound(before) && Prompt(before, Event.Pull(name)) {
        StepKeeps(before, Event.Pull(name));
        OtherStepKeeps(next, Advance(before.nextTask, 0));
      }
      hide Step;
      buffer := buffer[1..];
      if !kafka.data.log[at.0][at.1].decodes {
        Commit(at);
        kafka.world := Step(Step(before, Event.Pull(name)), Advance(before.nextTask, 0));
        return Discarded(at);
      }
      inFlight := inFlight + {at};
      kafka.world := Step(before, Event.Pull(name));
      step := Yield(at);
    }

    /** Only a delivery of this instance is acked: release it, then commit past it. */
    method Ack(at: At) returns (settled: bool)
      requires Valid()
      modifies this, kafka
      ensures Valid() && settled == (at in old(inFlight))
      ensures kafka.world ==
        if !settled then old(kafka.world)
        else Step(Step(old(kafka.world), Event.Ack(name, at)), Advance(old(kafka.world).nextTask, 0))
      ensures inFlight == old(inFlight) - {at}
      ensures drainWaiters == if settled && inFlight == {} then 0 else old(drainWaiters)
      ensures old(Sound(kafka.world)) ==> Sound(kafka.world)
    {
      hide Sound, Tidy;
      settled := at in inFlight;
      if !settled {
        return;
      }
      ghost var before := kafka.world;
      AckEffect(before, name, at);
      TwoStepsKeep(before, Event.Ack(name, at), Advance(before.nextTask, 0));
      hide Step;
      var woken := Release(at);
      Commit(at);
      kafka.world := Step(Step(before, Event.Ack(name, at)), Advance(before.nextTask, 0));
    }

    /** `redeliverAndCommit`: the copy is in the log before the original is committed past. */
    method Reject(at: At, p: nat) returns (settled: bool)
      requires Valid() && p in kafka.data.log
      modifies this, kafka
      ensures Valid() && settled == (at in old(inFlight))
      ensures kafka.world ==
        if !settled then old(kafka.world)
        else
          var n := old(kafka.world).nextTask;
          Step(Step(Step(old(kafka.world), Event.Reject(name, at)), Advance(n, p)), Advance(n, p))
      ensures inFlight == old(inFlight) - {at}
      ensures drainWaiters == if settled && inFlight == {} then 0 else old(drainWaiters)
      ensures old(Sound(kafka.world)) ==> Sound(kafka.world)
    {
      hide Sound, Tidy;
      settled := at in inFlight;
      if !settled {
        return;
      }
      ghost var before := kafka.world;
      ghost var n := before.nextTask;
      RejectEffect(before, name, at, p);
      TwoStepsKeep(before, Event.Reject(name, at), Advance(n, p));
      TwoStepsKeep(Step(Step(before, Event.Reject(name, at)), Advance(n, p)), Advance(n, p), Advance(n, p));
      hide Step;
      var woken := Release(at);
      Publish(p, Content(kafka.data.log[at.0][at.1].message, true));
      Commit(at);
      kafka.world := Step(Step(Step(before, Event.Reject(name, at)), Advance(n, p)), Advance(n, p));
    }
  }

  lemma OtherStepKeeps(s: State, ev: Event)
    requires Sound(s) && !ev.Pull?
    ensures Sound(Step(s, ev))
  {
    hide Sound, Step;
    StepKeeps(s, ev);
  }

  /** Neither step is a pull, so the discipline has no say in them. */
  lemma TwoStepsKeep(s: State, a: Event, b: Event)
    requires Tidy(s) && !a.Pull? && !b.Pull?
    ensures Tidy(Step(s, a)) && Tidy(Step(Step(s, a), b))
    ensures Sound(s) ==> Sound(Step(s, a)) && Sound(Step(Step(s, a), b))
  {
    hide Sound, Tidy, Step;
    StepKeepsTidy(s, a);
    StepKeepsTidy(Step(s, a), b);
    if Sound(s) {
      StepKeeps(s, a);
      StepKeeps(Step(s, a), b);
    }
  }

  lemma PullEffect(s: State, name: string)
    requires Tidy(s) && name in s.instances && s.instances[name].buffer != [] && !s.instances[name].closing
    ensures var at, i, n := s.instances[name].buffer[0], s.instances[name], s.nextTask;
      var t := Step(s, Pull(name));
      && Exists(s.broker, at)
      && (ContentOf(s.broker, at).decodes ==>
            && t.broker == s.broker && name in t.instances
            && t.instances[name] == i.(buffer := i.buffer[1..], inFlight := i.inFlight + {at}))
      && (!ContentOf(s.broker, at).decodes ==> var u := Step(t, Advance(n, 0));
            && u.broker == Committed(s.broker, at) && name in u.instances
            && u.instances[name] == i.(buffer := i.buffer[1..]))
  {
    var at, i, n := s.instances[name].buffer[0], s.instances[name], s.nextTask;
    TidyExists(s);
    hide Tidy;
    var t := Pulled(s, name);
    assert Step(s, Pull(name)) == t;
    if !ContentOf(s.broker, at).decodes {
      assert n in t.tasks && t.tasks[n] == Task(name, at, Committing) && t.broker == s.broker;
      hide Pulled;
      assert Step(t, Advance(n, 0)) == Advanced(t, n, 0);
    }
  }

  lemma AckEffect(s: State, name: string, at: At)
    requires Tidy(s) && name in s.instances && at in s.instances[name].inFlight
    ensures var t := Step(Step(s, Ack(name, at)), Advance(s.nextTask, 0));
      && t.broker == Committed(s.broker, at) && name in t.instances
      && t.instances[name] == s.instances[name].(inFlight := s.instances[name].inFlight - {at})
  {
    TidyExists(s);
    hide Tidy;
    var a, n := AckStep(s, name, at), s.nextTask;
    assert Step(s, Ack(name, at)) == a && a.broker == s.broker;
    assert n in a.tasks && a.tasks[n] == Task(name, at, Committing);
    assert a.instances[name] == s.instances[name].(inFlight := s.instances[name].inFlight - {at});
    hide AckStep, Step;
    AdvanceEffect(a, n, 0);
  }

  /** The two commands of a settle. */
  lemma AdvanceEffect(s: State, n: nat, p: nat)
    requires n in s.tasks && Exists(s.broker, s.tasks[n].at)
    ensures var t := Step(s, Advance(n, p));
      && t == Advanced(s, n, p) && t.instances == s.instances
      && (s.tasks[n].work.Committing? ==> t.broker == Committed(s.broker, s.tasks[n].at))
  {
  }

  lemma RejectEffect(s: State, name: string, at: At, p: nat)
    requires Tidy(s) && name in s.instances && at in s.instances[name].inFlight && p in s.broker.log
    ensures Exists(s.broker, at)
    ensures var t := Step(Step(Step(s, Reject(name, at)), Advance(s.nextTask, p)), Advance(s.nextTask, p));
      var c := Content(ContentOf(s.broker, at).message, true);
      && t.broker == Committed(Published(s, p, c).broker, at) && name in t.instances
      && t.instances[name] == s.instances[name].(inFlight := s.instances[name].inFlight - {at})
  {
    TidyExists(s);
    hide Tidy;
    var a, n := RejectStep(s, name, at), s.nextTask;
    assert Step(s, Reject(name, at)) == a && a.broker == s.broker && a.log == s.log;
    assert n in a.tasks && a.tasks[n] == Task(name, at, Moving);
    assert a.instances[name] == s.instances[name].(inFlight := s.instances[name].inFlight - {at});
    hide RejectStep;
    var b := Advanced(a, n, p);
    assert Step(a, Advance(n, p)) == b;
    assert b.broker == Published(s, p, Content(ContentOf(s.broker, at).message, true)).broker;
    assert b.instances == a.instances && n in b.tasks && b.tasks[n] == Task(name, at, Committing);
    assert Exists(b.broker, at);
    hide Published, Step, Advanced;
    AdvanceEffect(b, n, p);
  }
}
