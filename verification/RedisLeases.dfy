/**
 * What the idle time of XAUTOCLAIM buys: an entry is handed out again only after it was left idle,
 * and while deliveries end in time nobody else has the entry in hand.
 */
module RedisLeases {
  import opened Common
  import opened RedisRuns
  import opened RedisProgress

  // ---- The record of the hand-outs ---------------------------------------------------

  /** Entry handed to a consumer at some moment: by a read, or by a reclaim of entries idle for `minIdle`. */
  datatype HandOut = HandOut(to: string, time: real, minIdle: Option<real>)

  /** What a step puts behind a consumer's batch. */
  function NewIn(s: State, t: State, name: string): seq<nat> {
    if name !in s.consumers || name !in t.consumers || |t.consumers[name].batch| < |s.consumers[name].batch| then []
    else t.consumers[name].batch[|s.consumers[name].batch|..]
  }

  function HandedOut(s: State, ev: Event, id: nat): Option<HandOut> {
    match ev
    case Read(name, _) =>
      if id in NewIn(s, Step(s, ev), name) then Some(HandOut(name, s.server.clock, None)) else None
    case Reclaim(name, _, minIdle) =>
      if id in NewIn(s, Step(s, ev), name) then Some(HandOut(name, s.server.clock, Some(minIdle))) else None
    case _ => None
  }

  /** The hand-outs of entry `id` in a run, in order. */
  function HandOuts(s: State, events: seq<Event>, id: nat): seq<HandOut>
    decreases |events|
  {
    if events == [] then []
    else
      var rest := HandOuts(Step(s, events[0]), events[1..], id);
      match HandedOut(s, events[0], id) case None => rest case Some(h) => [h] + rest
  }

  /** The record is complete: no other step gives a consumer an entry. */
  lemma OnlyTheseHandOut(s: State, ev: Event, name: string, id: nat)
    requires !ev.Read? && !ev.Reclaim? && name in Step(s, ev).consumers
    ensures id in Step(s, ev).consumers[name].batch ==> name in s.consumers && id in s.consumers[name].batch
  {
    hide Enqueue, XAck, XDel, Append;
    if ev.Advance? { AdvanceIsRemote(s, ev.task); hide Advanced; }
    else if ev.Send? { SendIsRemote(s, ev.name, ev.decodes, ev.delay); hide Sent, Advanced; }
    else if ev.AppendOne? { hide Sent, Advanced; PromotedBatch(s, ev.name); hide Promoted; }
    else { hide Sent, Advanced, Promoted; }
  }

  lemma PromotedBatch(s: State, owner: string)
    ensures Promoted(s, owner).consumers.Keys == s.consumers.Keys
    ensures forall i :: i in s.consumers ==>
      && Promoted(s, owner).consumers[i].batch == s.consumers[i].batch
      && Promoted(s, owner).consumers[i].inFlight == s.consumers[i].inFlight
      && Promoted(s, owner).consumers[i].closing == s.consumers[i].closing
  {
  }

  lemma SendIsRemote(s: State, name: string, decodes: bool, delay: real)
    ensures Sent(s, name, decodes, delay).consumers == s.consumers && Sent(s, name, decodes, delay).tasks == s.tasks
  {
  }

  lemma AdvanceIsRemote(s: State, n: nat)
    ensures Advanced(s, n).consumers == s.consumers
  {
  }

  // ---- Hand-outs are apart -----------------------------------------------------------

  /** Pending entries have been read, and not after now. */
  ghost predicate Stamped(server: Server) {
    forall id :: id in server.pel ==> id <= server.lastRead && server.pel[id] <= server.clock
  }

  /** A hand-out of `id` in a step to server `t`: by the read that first reaches it, or once it was idle. */
  ghost predicate Gives(s: Server, t: Server, id: nat, h: HandOut) {
    && h.time == s.clock && t.clock == s.clock && s.lastRead <= t.lastRead
    && id in t.pel && t.pel[id] == s.clock && id <= t.lastRead
    && (h.minIdle.None? ==> id > s.lastRead)
    && (h.minIdle.Some? ==> id in s.pel && s.clock - s.pel[id] >= h.minIdle.value)
  }

  /** A step without one: the entry is no more pending than before. */
  ghost predicate Leaves(s: Server, t: Server, id: nat) {
    && s.clock <= t.clock && s.lastRead <= t.lastRead
    && (id in t.pel ==> id in s.pel && t.pel[id] == s.pel[id])
  }

  lemma {:induction false} PresentIff(stream: map<nat, nat>, ids: seq<nat>, id: nat)
    ensures id in Present(stream, ids) <==> id in ids && id in stream
  {
    if ids != [] {
      PresentIff(stream, ids[1..], id);
      assert id in ids <==> id == ids[0] || id in ids[1..];
    }
  }

  lemma ReadGives(s: State, name: string, count: nat, id: nat)
    requires Stamped(s.server) && name in s.consumers
    ensures var t := ReadStep(s, name, count);
      && Stamped(t.server)
      && match HandedOut(s, Read(name, count), id)
         case Some(h) => Gives(s.server, t.server, id, h)
         case None => Leaves(s.server, t.server, id)
  {
    var upTo := Reach(s.server, count);
    var ids := UnreadTo(s.server, upTo);
    var t := ReadStep(s, name, count);
    assert Step(s, Read(name, count)) == t && t == ReadUpTo(s, name, upTo);
    hide Reach, Ascending;
    var before, read := s.consumers[name].batch, Ascending(ids);
    assert t.consumers[name].batch == before + read;
    assert NewIn(s, t, name) == read;
  }

  lemma ReclaimGives(s: State, name: string, ids: seq<nat>, minIdle: real, id: nat)
    requires Stamped(s.server) && name in s.consumers
    ensures var t := Reclaimed(s, name, ids, minIdle);
      && Stamped(t.server)
      && match HandedOut(s, Reclaim(name, ids, minIdle), id)
         case Some(h) => Gives(s.server, t.server, id, h)
         case None => Leaves(s.server, t.server, id)
  {
    var t := Reclaimed(s, name, ids, minIdle);
    assert Step(s, Reclaim(name, ids, minIdle)) == t;
    PresentIff(s.server.stream, ids, id);
    if CanReclaim(s, name, ids, minIdle) {
      assert t.consumers[name].batch == s.consumers[name].batch + Present(s.server.stream, ids);
    } else {
      assert t == s && NewIn(s, s, name) == [];
    }
    hide Present;
  }

  lemma OthersLeave(s: State, ev: Event, id: nat)
    requires Stamped(s.server) && !ev.Read? && !ev.Reclaim?
    ensures Stamped(Step(s, ev).server) && Leaves(s.server, Step(s, ev).server, id)
  {
    if ev.Advance? { AdvanceLeaves(s, ev.task); hide Advanced; }
    else { hide Advanced; }
  }

  lemma AdvanceLeaves(s: State, n: nat)
    ensures var t := Advanced(s, n).server;
      t.clock == s.server.clock && t.lastRead == s.server.lastRead && t.pel.Keys <= s.server.pel.Keys
      && forall id :: id in t.pel ==> t.pel[id] == s.server.pel[id]
  {
  }

  lemma StepGives(s: State, ev: Event, id: nat)
    requires Stamped(s.server)
    ensures var t := Step(s, ev);
      && Stamped(t.server)
      && match HandedOut(s, ev, id)
         case Some(h) => Gives(s.server, t.server, id, h)
         case None => Leaves(s.server, t.server, id)
  {
    if ev.Read? && ev.name in s.consumers {
      ReadGives(s, ev.name, ev.count, id);
    } else if ev.Reclaim? && ev.name in s.consumers {
      ReclaimGives(s, ev.name, ev.ids, ev.minIdle, id);
    } else if !ev.Read? && !ev.Reclaim? {
      OthersLeave(s, ev, id);
      hide Step;
    }
    hide Stamped, Gives, Leaves, ReadStep, Reclaimed, NewIn;
  }

  /** How a record of hand-outs of `id` may continue from `s`. */
  ghost predicate Follows(s: Server, id: nat, hs: seq<HandOut>) {
    && (forall i :: 0 <= i < |hs| ==> hs[i].time >= s.clock && (hs[i].minIdle.None? ==> i == 0 && id > s.lastRead))
    && (hs != [] && id <= s.lastRead ==> id in s.pel && hs[0].minIdle.Some?)
    && (hs != [] && hs[0].minIdle.Some? ==> id in s.pel && hs[0].time - s.pel[id] >= hs[0].minIdle.value)
    && (forall i :: 0 < i < |hs| ==> hs[i].minIdle.Some? && hs[i].time - hs[i - 1].time >= hs[i].minIdle.value)
  }

  lemma FollowsGiven(s: Server, t: Server, id: nat, h: HandOut, hs: seq<HandOut>)
    requires Stamped(s) && Gives(s, t, id, h) && Follows(t, id, hs)
    ensures Follows(s, id, [h] + hs)
  {
    var all := [h] + hs;
    forall i | 0 < i < |all| ensures all[i].minIdle.Some? && all[i].time - all[i - 1].time >= all[i].minIdle.value {
      assert all[i] == hs[i - 1] && (i > 1 ==> all[i - 1] == hs[i - 2]);
    }
  }

  lemma FollowsLeft(s: Server, t: Server, id: nat, hs: seq<HandOut>)
    requires Stamped(s) && Leaves(s, t, id) && Follows(t, id, hs)
    ensures Follows(s, id, hs)
  {
  }

  lemma {:induction false} RunFollows(s: State, events: seq<Event>, id: nat)
    requires Stamped(s.server)
    ensures Stamped(Run(s, events).server) && Follows(s.server, id, HandOuts(s, events, id))
    decreases |events|
  {
    hide *;
    if events == [] {
      NothingFollows(s, id);
    } else {
      var t := Step(s, events[0]);
      StepGives(s, events[0], id);
      RunFollows(t, events[1..], id);
      RunIs(s, events, id);
      match HandedOut(s, events[0], id)
      case None => FollowsLeft(s.server, t.server, id, HandOuts(t, events[1..], id));
      case Some(h) => FollowsGiven(s.server, t.server, id, h, HandOuts(t, events[1..], id));
    }
  }

  lemma NothingFollows(s: State, id: nat)
    ensures Run(s, []) == s && HandOuts(s, [], id) == [] && Follows(s.server, id, [])
  {
  }

  lemma RunIs(s: State, events: seq<Event>, id: nat)
    requires events != []
    ensures var t := Step(s, events[0]);
      && Run(s, events) == Run(t, events[1..])
      && HandOuts(s, events, id) ==
           match HandedOut(s, events[0], id)
           case None => HandOuts(t, events[1..], id)
           case Some(h) => [h] + HandOuts(t, events[1..], id)
  {
    hide Step, HandedOut;
  }

  /**
   * In any run the first hand-out of an entry is the read that reaches it, every later one a reclaim,
   * at least that reclaimer's idle time after the hand-out before it.
   */
  lemma SuccessiveHandOutsAreApart(s: State, events: seq<Event>, id: nat)
    requires Initial(s)
    ensures var hs := HandOuts(s, events, id);
      && (hs != [] ==> hs[0].minIdle.None?)
      && forall i :: 0 < i < |hs| ==> hs[i].minIdle.Some? && hs[i].time - hs[i - 1].time >= hs[i].minIdle.value
  {
    RunFollows(s, events, id);
    hide HandOuts;
  }

  /** An entry that was acknowledged, or otherwise left the pending list after its read, is never handed out again. */
  lemma SettledIsNeverHandedOut(s: State, before: seq<Event>, after: seq<Event>, id: nat)
    requires Initial(s)
    requires var t := Run(s, before).server; id <= t.lastRead && id !in t.pel
    ensures HandOuts(Run(s, before), after, id) == []
  {
    RunFollows(s, before, id);
    RunFollows(Run(s, before), after, id);
    hide HandOuts, Run;
  }

  /** A reclaim leaves an entry alone that has not been idle long enough: whoever has it, has it on. */
  lemma FreshIsLeftAlone(s: State, name: string, ids: seq<nat>, minIdle: real, id: nat)
    requires id in s.server.pel && s.server.clock - s.server.pel[id] < minIdle
    ensures var t := Step(s, Reclaim(name, ids, minIdle));
      && id in t.server.pel && t.server.pel[id] == s.server.pel[id]
      && t.consumers.Keys == s.consumers.Keys
      && forall i :: i in s.consumers ==>
           (id in t.consumers[i].batch <==> id in s.consumers[i].batch)
           && t.consumers[i].inFlight == s.consumers[i].inFlight
  {
    PresentIff(s.server.stream, ids, id);
    hide Present;
  }

  // ---- Deliveries that end in time are exclusive -------------------------------------

  /** `name` has entry `id` in hand: pulled, delivered, or being rejected or discarded. */
  ghost predicate Held(s: State, name: string, id: nat) {
    || (name in s.consumers && (id in s.consumers[name].batch || id in s.consumers[name].inFlight))
    || exists n :: HeldByTask(s, n, name, id)
  }

  ghost predicate HeldByTask(s: State, n: nat, name: string, id: nat) {
    n in s.tasks && s.tasks[n].owner == name && s.tasks[n].id == id
    && (s.tasks[n].work.Moving? || s.tasks[n].work.Discarding?)
  }

  /** Whenever somebody reclaims, what is in hand was handed out less than that reclaimer's idle time ago. */
  ghost predicate InTime(s: State, ev: Event) {
    ev.Reclaim? ==> forall i, id :: Held(s, i, id) && id in s.server.pel ==>
      s.server.clock - s.server.pel[id] < ev.minIdle
  }

  ghost predicate Timely(s: State, events: seq<Event>)
    decreases |events|
  {
    events != [] ==> InTime(s, events[0]) && Timely(Step(s, events[0]), events[1..])
  }

  ghost predicate OneHand(s: State) { forall i, j, id :: Held(s, i, id) && Held(s, j, id) ==> i == j }

  /** What is in hand was read. */
  ghost predicate HandsRead(s: State) { forall i, id: nat :: Held(s, i, id) ==> id <= s.server.lastRead }

  ghost predicate FewerHands(s: State, t: State) { forall i, id :: Held(t, i, id) ==> Held(s, i, id) }

  lemma FewerIsFine(s: State, t: State)
    requires OneHand(s) && HandsRead(s) && FewerHands(s, t) && s.server.lastRead <= t.server.lastRead
    ensures OneHand(t) && HandsRead(t)
  {
    hide Held;
  }

  /** Consumer `name`'s registers change; its tasks stay, or gain one for `id`, held before. */
  lemma LocalHands(s: State, t: State, name: string)
    requires t.tasks == s.tasks && name in s.consumers && t.consumers.Keys == s.consumers.Keys
    requires forall i :: i in s.consumers && i != name ==> t.consumers[i] == s.consumers[i]
    requires forall id :: id in t.consumers[name].batch ==> id in s.consumers[name].batch
    requires t.consumers[name].inFlight <= s.consumers[name].inFlight
    ensures FewerHands(s, t)
  {
    forall i, id | Held(t, i, id) ensures Held(s, i, id) {
      if n :| HeldByTask(t, n, i, id) { assert HeldByTask(s, n, i, id); }
    }
  }

  lemma TasksHands(s: State, t: State)
    requires t.consumers == s.consumers
    requires forall n: nat, i, id: nat :: HeldByTask(t, n, i, id) ==> Held(s, i, id)
    ensures FewerHands(s, t)
  {
    forall i, id | Held(t, i, id) ensures Held(s, i, id) {
      if n :| HeldByTask(t, n, i, id) { assert Held(s, i, id); }
    }
  }

  lemma AdvanceHands(s: State, n: nat)
    ensures FewerHands(s, Advanced(s, n))
  {
    var t := Advanced(s, n);
    AdvanceIsRemote(s, n);
    forall m, i, id | HeldByTask(t, m, i, id) ensures Held(s, i, id) {
      AdvanceTask(s, n, m, i, id);
    }
    hide Advanced;
    TasksHands(s, t);
  }

  lemma AdvanceTask(s: State, n: nat, m: nat, i: string, id: nat)
    requires HeldByTask(Advanced(s, n), m, i, id)
    ensures HeldByTask(s, m, i, id)
  {
    hide Append, Delay;
  }

  /** An acknowledgement or a rejection puts nothing in hand. */
  lemma SettleHands(s: State, name: string, id: nat, delay: real)
    ensures FewerHands(s, AckStep(s, name, id)) && FewerHands(s, RejectStep(s, name, id, delay))
  {
    var t, u := AckStep(s, name, id), RejectStep(s, name, id, delay);
    forall i, x | Held(t, i, x) ensures Held(s, i, x) {
      if n :| HeldByTask(t, n, i, x) { assert t != s ==> n != s.nextTask; assert HeldByTask(s, n, i, x); }
    }
    forall i, x | Held(u, i, x) ensures Held(s, i, x) {
      if n :| HeldByTask(u, n, i, x) {
        if u == s || n != s.nextTask { assert HeldByTask(s, n, i, x); }
      }
    }
  }

  lemma YieldHands(s: State, name: string)
    ensures FewerHands(s, Yielded(s, name))
  {
    var t := Yielded(s, name);
    forall i, x | Held(t, i, x) ensures Held(s, i, x) {
      if n :| HeldByTask(t, n, i, x) {
        if t == s || n != s.nextTask || t.nextTask == s.nextTask { assert HeldByTask(s, n, i, x); }
      }
    }
  }

  lemma CrashHands(s: State, name: string, n: nat)
    ensures FewerHands(s, Crashed(s, name)) && FewerHands(s, s.(tasks := s.tasks - {n}))
  {
    var t, u := Crashed(s, name), s.(tasks := s.tasks - {n});
    forall i, x | Held(t, i, x) ensures Held(s, i, x) {
      if m :| HeldByTask(t, m, i, x) { assert HeldByTask(s, m, i, x); }
    }
    forall i, x | Held(u, i, x) ensures Held(s, i, x) {
      if m :| HeldByTask(u, m, i, x) { assert HeldByTask(s, m, i, x); }
    }
  }

  lemma SameHands(s: State, t: State)
    requires t.tasks == s.tasks
    requires forall i :: i in t.consumers ==>
      if i in s.consumers
      then t.consumers[i].batch == s.consumers[i].batch && t.consumers[i].inFlight == s.consumers[i].inFlight
      else t.consumers[i].batch == [] && t.consumers[i].inFlight == {}
    ensures FewerHands(s, t)
  {
    forall i, x | Held(t, i, x) ensures Held(s, i, x) {
      if m :| HeldByTask(t, m, i, x) { assert HeldByTask(s, m, i, x); }
    }
  }

  lemma OthersHands(s: State, ev: Event)
    requires !ev.Read? && !ev.Reclaim?
    ensures FewerHands(s, Step(s, ev))
  {
    hide FewerHands, Held, Advanced, AckStep, RejectStep, Yielded, Sent, Crashed;
    match ev
    case Advance(n) => AdvanceHands(s, n);
    case Ack(name, id) => SettleHands(s, name, id, 0.0);
    case Reject(name, id, delay) => SettleHands(s, name, id, delay);
    case Yield(name) => YieldHands(s, name);
    case Crash(name) => CrashHands(s, name, 0);
    case Abandon(n) => CrashHands(s, "", n);
    case Send(name, decodes, delay) => SendIsRemote(s, name, decodes, delay); SameHands(s, Step(s, ev));
    case Drop(name) => if name in s.consumers { LocalHands(s, Step(s, ev), name); } else { SameHands(s, s); }
    case _ => SameHands(s, Step(s, ev));
  }

  /** The ids behind the batch are the only ones that come to hand. */
  lemma ReadHands(s: State, name: string, count: nat, i: string, id: nat)
    requires name in s.consumers && Held(ReadStep(s, name, count), i, id)
    ensures Held(s, i, id) || (i == name && s.server.lastRead < id <= Reach(s.server, count))
  {
    var t := ReadStep(s, name, count);
    hide Reach, Ascending;
    if n :| HeldByTask(t, n, i, id) { assert HeldByTask(s, n, i, id); }
  }

  lemma ReadIsExclusive(s: State, name: string, count: nat)
    requires OneHand(s) && HandsRead(s)
    ensures OneHand(ReadStep(s, name, count)) && HandsRead(ReadStep(s, name, count))
  {
    if name in s.consumers {
      var t := ReadStep(s, name, count);
      assert t.server.lastRead == Reach(s.server, count) >= s.server.lastRead;
      hide Reach, ReadUpTo, ReadStep, Held;
      forall i, id: nat | Held(t, i, id) ensures id <= t.server.lastRead {
        ReadHands(s, name, count, i, id);
      }
      forall i, j, id | Held(t, i, id) && Held(t, j, id) ensures i == j {
        ReadHands(s, name, count, i, id);
        ReadHands(s, name, count, j, id);
      }
    }
  }

  lemma ReclaimHands(s: State, name: string, ids: seq<nat>, minIdle: real, i: string, id: nat)
    requires Held(Reclaimed(s, name, ids, minIdle), i, id)
    ensures Held(s, i, id) || (i == name && CanReclaim(s, name, ids, minIdle) && id in ids && id in s.server.stream)
  {
    var t := Reclaimed(s, name, ids, minIdle);
    PresentIff(s.server.stream, ids, id);
    hide Present;
    if n :| HeldByTask(t, n, i, id) { assert HeldByTask(s, n, i, id); }
  }

  lemma ReclaimTakes(s: State, name: string, ids: seq<nat>, minIdle: real, id: nat)
    requires CanReclaim(s, name, ids, minIdle) && id in ids && id in s.server.stream
    ensures Held(Reclaimed(s, name, ids, minIdle), name, id)
    ensures forall i :: Held(s, i, id) ==> Held(Reclaimed(s, name, ids, minIdle), i, id)
  {
    var t := Reclaimed(s, name, ids, minIdle);
    PresentIff(s.server.stream, ids, id);
    hide Present;
    forall i | Held(s, i, id) ensures Held(t, i, id) {
      if n :| HeldByTask(s, n, i, id) { assert HeldByTask(t, n, i, id); }
    }
  }

  /** An entry in hand is pending with its hand-out's stamp, or acknowledged: a reclaim in time passes it by. */
  lemma ReclaimIsExclusive(s: State, name: string, ids: seq<nat>, minIdle: real)
    requires OneHand(s) && HandsRead(s) && Stamped(s.server) && InTime(s, Reclaim(name, ids, minIdle))
    ensures OneHand(Reclaimed(s, name, ids, minIdle)) && HandsRead(Reclaimed(s, name, ids, minIdle))
  {
    var t := Reclaimed(s, name, ids, minIdle);
    assert t.server.lastRead == s.server.lastRead;
    hide Held, Reclaimed;
    forall i, id: nat | Held(t, i, id) ensures id <= t.server.lastRead {
      ReclaimHands(s, name, ids, minIdle, i, id);
    }
    forall i, j, id | Held(t, i, id) && Held(t, j, id) ensures i == j {
      ReclaimHands(s, name, ids, minIdle, i, id);
      ReclaimHands(s, name, ids, minIdle, j, id);
    }
  }

  lemma StepIsExclusive(s: State, ev: Event)
    requires OneHand(s) && HandsRead(s) && Stamped(s.server) && InTime(s, ev)
    ensures OneHand(Step(s, ev)) && HandsRead(Step(s, ev)) && Stamped(Step(s, ev).server)
  {
    StepGives(s, ev, 0);
    hide OneHand, HandsRead, Stamped, InTime, Reclaimed, ReadStep, HandedOut;
    match ev
    case Read(name, count) => ReadIsExclusive(s, name, count);
    case Reclaim(name, ids, minIdle) => ReclaimIsExclusive(s, name, ids, minIdle);
    case _ =>
      OthersHands(s, ev);
      hide Step, FewerHands;
      FewerIsFine(s, Step(s, ev));
  }

  lemma {:induction false} RunIsExclusive(s: State, events: seq<Event>)
    requires OneHand(s) && HandsRead(s) && Stamped(s.server) && Timely(s, events)
    ensures var t := Run(s, events); OneHand(t) && HandsRead(t) && Stamped(t.server)
    decreases |events|
  {
    hide OneHand, HandsRead, Stamped, InTime, Step;
    if events != [] {
      StepIsExclusive(s, events[0]);
      RunIsExclusive(Step(s, events[0]), events[1..]);
    }
  }

  lemma InitialHands(s: State)
    requires Initial(s)
    ensures OneHand(s) && HandsRead(s) && Stamped(s.server)
  {
    forall i, id ensures !Held(s, i, id) {
      forall n: nat ensures !HeldByTask(s, n, i, id) {}
    }
    hide Held;
  }

  /**
   * In any run in which nobody has an entry in hand for longer than the idle time of whoever
   * reclaims, no entry is in the hands of two consumers.
   */
  lemma LeaseExclusion(s: State, events: seq<Event>)
    requires Initial(s) && Timely(s, events)
    ensures OneHand(Run(s, events))
  {
    InitialHands(s);
    hide *;
    RunIsExclusive(s, events);
  }

  /** The discipline is exact: after such a run, a reclaim makes a second hand exactly when it takes a held entry. */
  lemma SecondHandIff(s: State, events: seq<Event>, name: string, ids: seq<nat>, minIdle: real)
    requires Initial(s) && Timely(s, events)
    ensures var t := Run(s, events);
      !OneHand(Step(t, Reclaim(name, ids, minIdle))) <==>
        CanReclaim(t, name, ids, minIdle)
        && exists i, id :: Held(t, i, id) && i != name && id in ids && id in t.server.stream
  {
    InitialHands(s);
    RunIsExclusive(s, events);
    var t := Run(s, events);
    var u := Step(t, Reclaim(name, ids, minIdle));
    assert u == Reclaimed(t, name, ids, minIdle);
    hide Run, Held, Step, Reclaimed, CanReclaim, Initial, Timely, HandsRead, Stamped;
    forall i, id | Held(t, i, id) && i != name && id in ids && id in t.server.stream
      ensures CanReclaim(t, name, ids, minIdle) ==> !OneHand(u)
    {
      if CanReclaim(t, name, ids, minIdle) {
        ReclaimTakes(t, name, ids, minIdle, id);
        assert Held(u, i, id) && Held(u, name, id);
      }
    }
    forall i, j, id | Held(u, i, id) && Held(u, j, id) && i != j
      ensures CanReclaim(t, name, ids, minIdle)
      ensures exists k, x :: Held(t, k, x) && k != name && x in ids && x in t.server.stream
    {
      ReclaimHands(t, name, ids, minIdle, i, id);
      ReclaimHands(t, name, ids, minIdle, j, id);
      assert Held(t, if i == name then j else i, id);
    }
  }

  // ---- What a read and a promotion take ----------------------------------------------

  /** A read takes the oldest unread entries, in order, as many as asked for or as there are. */
  lemma ReadTakesOldest(s: State, name: string, count: nat)
    requires name in s.consumers
    ensures var t := Step(s, Read(name, count));
      var read := NewIn(s, t, name);
      && Increasing(read)
      && (forall id :: id in read <==> id in Unread(s.server) && id <= t.server.lastRead)
      && (forall id :: id in Unread(t.server) <==> id in Unread(s.server) && id !in read)
      && |read| == if count <= |Unread(s.server)| then count else |Unread(s.server)|
  {
    var upTo, ids := Reach(s.server, count), UnreadTo(s.server, Reach(s.server, count));
    var t := Step(s, Read(name, count));
    AscendingFacts(ids);
    AscendingSize(ids);
    ReachCounts(s.server, count);
    hide Reach, Ascending, Increasing;
    assert t.consumers[name].batch == s.consumers[name].batch + Ascending(ids);
    assert NewIn(s, t, name) == Ascending(ids);
  }

  lemma {:induction false} AscendingSize(ids: set<nat>)
    ensures |Ascending(ids)| == |ids|
    decreases |ids|
  {
    if ids != {} { AscendingSize(ids - {Least(ids)}); }
  }

  lemma ReachCounts(server: Server, count: nat)
    ensures |UnreadTo(server, Reach(server, count))| == if count <= |Unread(server)| then count else |Unread(server)|
  {
    var all := Unread(server);
    var ids := Ascending(all);
    AscendingFacts(all);
    AscendingSize(all);
    hide Ascending;
    var n := if count <= |ids| then count else |ids|;
    var upTo := Reach(server, count);
    forall id ensures id in UnreadTo(server, upTo) <==> id in ids[..n] {
      if id in all {
        var i :| 0 <= i < |ids| && ids[i] == id;
        assert n > 0 ==> upTo == ids[n - 1];
        if i < n { assert ids[..n][i] == id; }
      }
    }
    SizeOfIncreasing(ids[..n], UnreadTo(server, upTo));
  }

  lemma {:induction false} SizeOfIncreasing(r: seq<nat>, ids: set<nat>)
    requires Increasing(r) && forall id :: id in r <==> id in ids
    ensures |r| == |ids|
    decreases |r|
  {
    if r == [] {
      assert ids == {};
    } else {
      var x, init := r[|r| - 1], r[..|r| - 1];
      assert x in ids;
      forall id ensures id in init <==> id in ids - {x} {
        assert r == init + [x];
        if id in init { var i :| 0 <= i < |init| && init[i] == id; }
      }
      SizeOfIncreasing(init, ids - {x});
    }
  }

  /** The promotion script takes exactly the messages that are due, each once, and leaves the others. */
  lemma PopTakesAllDue(s: State, name: string, order: seq<nat>)
    requires Step(s, PopDue(name, order)) != s && name in s.consumers
    ensures var t := Step(s, PopDue(name, order));
      && t.consumers[name].promoting == order
      && (forall c :: c in order <==> c in s.server.delayed && s.server.delayed[c] <= s.server.clock)
      && (forall i, j :: 0 <= i < j < |order| ==> order[i] != order[j])
      && (forall c :: c in t.server.delayed <==> c in s.server.delayed && c !in order)
      && (forall c :: c in t.server.delayed ==>
           t.server.delayed[c] == s.server.delayed[c] && s.server.delayed[c] > s.server.clock)
  {
  }

  // ---- Settled for good --------------------------------------------------------------

  lemma {:induction false} RunReads(s: State, events: seq<Event>)
    requires HandsRead(s) && Stamped(s.server)
    ensures HandsRead(Run(s, events)) && Stamped(Run(s, events).server)
    decreases |events|
  {
    hide HandsRead, Stamped, Step;
    if events != [] {
      StepReads(s, events[0]);
      RunReads(Step(s, events[0]), events[1..]);
    }
  }

  lemma StepReads(s: State, ev: Event)
    requires HandsRead(s) && Stamped(s.server)
    ensures HandsRead(Step(s, ev)) && Stamped(Step(s, ev).server)
  {
    StepGives(s, ev, 0);
    var t := Step(s, ev);
    forall i, id: nat | Held(t, i, id) ensures id <= t.server.lastRead {
      StepGives(s, ev, id);
      if ev.Read? && ev.name in s.consumers {
        ReadHands(s, ev.name, ev.count, i, id);
        assert t.server.lastRead == Reach(s.server, ev.count);
      } else if ev.Reclaim? {
        ReclaimHands(s, ev.name, ev.ids, ev.minIdle, i, id);
      } else if !ev.Read? {
        OthersHands(s, ev);
      }
      hide Held, Reach, Reclaimed;
    }
    hide Held;
  }

  /** Entry `id` is neither pending nor stored, and all else is as in `s`. */
  ghost predicate Removed(s: Server, t: Server, id: nat) {
    t.pel == s.pel - {id} && t.stream == s.stream - {id} && t.lastRead == s.lastRead
  }

  lemma AckRemoves(s: State, name: string, id: nat)
    requires TasksMatch(s) && name in s.consumers && id in s.consumers[name].inFlight
    ensures var a := Step(s, Ack(name, id));
      var t := Step(Step(a, Advance(s.nextTask)), Advance(s.nextTask));
      && Removed(s.server, t.server, id) && t.tasks == s.tasks
      && id in s.log.held && t.log == s.log.(acked := s.log.acked + {s.log.held[id]})
  {
    var task := s.nextTask;
    assert task !in s.tasks && id in s.log.held && s.log.held[id] in s.log.content;
    var a := Step(s, Ack(name, id));
    assert a.tasks == s.tasks[task := Task(name, id, Acking)] && a.server == s.server;
    AcknowledgeRemoves(a, task, name, id);
    assert s.tasks[task := Task(name, id, Acking)] - {task} == s.tasks;
  }

  /** XACK, then XDEL. */
  lemma AcknowledgeRemoves(s: State, task: nat, name: string, id: nat)
    requires task in s.tasks && s.tasks[task] == Task(name, id, Acking)
    requires id in s.log.held && s.log.held[id] in s.log.content
    ensures var t := Step(Step(s, Advance(task)), Advance(task));
      t.tasks == s.tasks - {task} && t.log == s.log && Removed(s.server, t.server, id)
  {
    var t := Step(s, Advance(task));
    assert t.tasks == s.tasks[task := Task(name, id, Deleting)] && t.server == XAck(s, id).server && t.log == s.log;
    assert s.tasks[task := Task(name, id, Deleting)] - {task} == s.tasks - {task};
  }

  /**
   * An acked delivery is over: from every reachable state, uninterrupted, its entry leaves the
   * pending list and the stream and nothing else does, and no continuation hands it out again.
   */
  lemma AckedIsGone(s: State, before: seq<Event>, name: string, id: nat, after: seq<Event>)
    requires Initial(s) && CalmRun(s, before)
    requires name in Run(s, before).consumers && id in Run(s, before).consumers[name].inFlight
    ensures var t := Run(s, before);
      var u := Step(Step(Step(t, Ack(name, id)), Advance(t.nextTask)), Advance(t.nextTask));
      && Removed(t.server, u.server, id) && u.tasks == t.tasks
      && id in t.log.held && u.log == t.log.(acked := t.log.acked + {t.log.held[id]})
      && HandOuts(u, after, id) == []
  {
    InitialIsSound(s);
    InitialHands(s);
    RunKeeps(s, before);
    RunReads(s, before);
    var t := Run(s, before);
    assert Held(t, name, id);
    hide Run, CalmRun, Step, Held, BooksMatch, TasksMatch, AllDeliverable, HandOuts;
    AckRemoves(t, name, id);
    var u := Step(Step(Step(t, Ack(name, id)), Advance(t.nextTask)), Advance(t.nextTask));
    StepReads(t, Ack(name, id));
    StepReads(Step(t, Ack(name, id)), Advance(t.nextTask));
    StepReads(Step(Step(t, Ack(name, id)), Advance(t.nextTask)), Advance(t.nextTask));
    RunFollows(u, after, id);
  }

  lemma RejectReplaces(s: State, name: string, id: nat, delay: real)
    requires BooksMatch(s) && TasksMatch(s) && name in s.consumers && id in s.consumers[name].inFlight
    ensures id in s.log.held && s.log.held[id] in s.log.content
    ensures var a := Step(s, Reject(name, id, delay));
      var t := Step(Step(Step(a, Advance(s.nextTask)), Advance(s.nextTask)), Advance(s.nextTask));
      && t.tasks == s.tasks
      && t.log.content == s.log.content[s.log.copies := Content(s.log.content[s.log.held[id]].message, true)]
      && Removed(Enqueue(s, Content(s.log.content[s.log.held[id]].message, true), delay).server, t.server, id)
  {
    var task := s.nextTask;
    assert task !in s.tasks && id in s.log.held && s.log.held[id] in s.log.content;
    var a := Step(s, Reject(name, id, delay));
    assert a.tasks == s.tasks[task := Task(name, id, Moving(delay))] && a.server == s.server && a.log == s.log;
    var c := Content(s.log.content[s.log.held[id]].message, true);
    var b := Step(a, Advance(task));
    MovingEnqueues(s, a, task, name, id, delay);
    EnqueueRecords(s, c, delay, id);
    hide Enqueue, Removed, Step;
    AcknowledgeRemoves(b, task, name, id);
    assert s.tasks[task := Task(name, id, Acking)] - {task} == s.tasks;
  }

  lemma MovingEnqueues(s: State, a: State, task: nat, name: string, id: nat, delay: real)
    requires id in s.log.held && s.log.held[id] in s.log.content && a.server == s.server && a.log == s.log
    requires a.tasks == s.tasks[task := Task(name, id, Moving(delay))]
    ensures var c, b := Content(s.log.content[s.log.held[id]].message, true), Step(a, Advance(task));
      && b.tasks == s.tasks[task := Task(name, id, Acking)]
      && b.server == Enqueue(s, c, delay).server && b.log == Enqueue(s, c, delay).log
  {
    EnqueueIsLocal(a, s, Content(s.log.content[s.log.held[id]].message, true), delay);
    hide Enqueue;
  }

  /** What is enqueued depends on the server and the record only. */
  lemma EnqueueIsLocal(a: State, s: State, c: Content, delay: real)
    requires a.server == s.server && a.log == s.log
    ensures var t, u := Enqueue(a, c, delay), Enqueue(s, c, delay);
      t.server == u.server && t.log == u.log && t.tasks == a.tasks
  {
    var x, y := Recorded(a, c), Recorded(s, c);
    assert x.server == y.server && x.log == y.log && x.tasks == a.tasks;
    hide Recorded;
    if delay > 0.0 { hide Append; } else { hide Delay; }
  }

  lemma EnqueueRecords(s: State, c: Content, delay: real, id: nat)
    requires id in s.log.held && id <= s.server.lastId && s.log.held[id] in s.log.content
    ensures var log := Enqueue(s, c, delay).log;
      && log.content == s.log.content[s.log.copies := c]
      && id in log.held && log.held[id] == s.log.held[id]
  {
  }

  // ---- A closed consumer -------------------------------------------------------------

  /** A closed consumer sends and delivers nothing any more, and what it has in flight only shrinks. */
  lemma ClosedIsQuiet(s: State, name: string, events: seq<Event>)
    requires name in s.consumers && Crash(name) !in events
    ensures var t := Run(Step(s, Close(name)), events);
      && name in t.consumers && t.consumers[name].inFlight <= s.consumers[name].inFlight
      && Step(t, Yield(name)) == t && forall decodes, delay :: Step(t, Send(name, decodes, delay)) == t
  {
    StaysClosed(Step(s, Close(name)), name, events);
    hide Run, Enqueue;
  }

  lemma {:induction false} StaysClosed(s: State, name: string, events: seq<Event>)
    requires name in s.consumers && s.consumers[name].closing && Crash(name) !in events
    ensures var t := Run(s, events);
      name in t.consumers && t.consumers[name].closing && t.consumers[name].inFlight <= s.consumers[name].inFlight
    decreases |events|
  {
    if events != [] {
      StepStaysClosed(s, name, events[0]);
      hide Step;
      StaysClosed(Step(s, events[0]), name, events[1..]);
    }
  }

  lemma StepStaysClosed(s: State, name: string, ev: Event)
    requires name in s.consumers && s.consumers[name].closing && ev != Crash(name)
    ensures var t := Step(s, ev);
      name in t.consumers && t.consumers[name].closing && t.consumers[name].inFlight <= s.consumers[name].inFlight
  {
    hide Enqueue, Append, Present, Ascending, Reach;
    if ev.Advance? { AdvanceIsRemote(s, ev.task); hide Advanced; }
    else if ev.Send? { SendIsRemote(s, ev.name, ev.decodes, ev.delay); hide Sent, Advanced; }
    else if ev.AppendOne? { PromotedBatch(s, ev.name); hide Promoted, Sent, Advanced; }
    else { hide Sent, Advanced, Promoted; }
  }

  /** What a consumer drops of its batch stays pending, to be reclaimed, and is not delivered by it. */
  lemma DroppedStaysPending(s: State, name: string)
    requires name in s.consumers
    ensures var t := Step(s, Drop(name));
      t.server == s.server && t.log == s.log && t.consumers[name].inFlight == s.consumers[name].inFlight
      && Step(t, Yield(name)) == t
  {
  }
}
