/**
 * Nothing gets stuck in Redis: after any run without a crash in the middle of a promotion, one
 * consumer that starts can take and ack everything that is owed, however small its batches.
 * Promotions under way end, time passes, and the new consumer promotes, reclaims, reads, handles
 * and acks.
 */
module RedisProgress {
  import opened Common
  import opened RedisRuns
  import opened RedisTransport

  /** Who consumes, how many entries it pulls at a time, and how long an entry idles before it is reclaimed. */
  datatype Taker = Taker(name: string, size: nat, minIdle: real)

  /**
   * The passing of time, appends of promotions under way, and the taker's own loop: promotion,
   * reclaim, read, delivery, acks of what it has in hand. Nobody sends, rejects, crashes, closes or
   * gives up.
   */
  predicate Forward(s: State, ev: Event, me: Taker) {
    match ev
    case Tick(_) => true
    case AppendOne(_) => true
    case Start(name) => name == me.name
    case PopDue(name, _) => name == me.name
    case Reclaim(name, ids, minIdle) => name == me.name && |ids| <= me.size && minIdle == me.minIdle
    case Read(name, count) => name == me.name && count == me.size
    case Yield(name) => name == me.name
    case Ack(name, id) => name == me.name && name in s.consumers && id in s.consumers[name].inFlight
    case Advance(n) => n in s.tasks && s.tasks[n].owner == me.name && !s.tasks[n].work.Moving?
    case _ => false
  }

  predicate AllForward(s: State, events: seq<Event>, me: Taker)
    decreases |events|
  {
    events == [] || (Forward(s, events[0], me) && AllForward(Step(s, events[0]), events[1..], me))
  }

  /** The same messages with the same newest copies, and the acks and ids of before. */
  ghost predicate SameMessages(s: State, t: State) {
    && t.log.content == s.log.content && t.log.latest == s.log.latest && s.log.acked <= t.log.acked
    && forall id: nat :: id in s.log.held ==> id in t.log.held && t.log.held[id] == s.log.held[id]
  }

  ghost predicate Leads(s: State, events: seq<Event>, t: State, me: Taker) {
    AllForward(s, events, me) && t == Run(s, events) && Healthy(t) && SameMessages(s, t)
  }

  lemma AppendOneIsRemote(s: State, name: string)
    requires BooksMatch(s)
    ensures SameMessages(s, Promoted(s, name))
  {
  }

  lemma CommandIsRemote(s: State, n: nat)
    requires n in s.tasks && !s.tasks[n].work.Moving?
    ensures SameMessages(s, Advanced(s, n))
  {
  }

  lemma ForwardKeepsMessages(s: State, ev: Event, me: Taker)
    requires BooksMatch(s) && Forward(s, ev, me)
    ensures SameMessages(s, Step(s, ev))
  {
    match ev
    case AppendOne(name) => AppendOneIsRemote(s, name);
    case Advance(n) => CommandIsRemote(s, n); hide Advanced;
    case _ => hide BooksMatch, Promoted, Advanced, Reach, Ascending, Present;
  }

  lemma HasBooks(s: State)
    requires Healthy(s)
    ensures BooksMatch(s)
  {
    hide BooksMatch, TasksMatch, AllDeliverable, DelaysMatch, DelaysAlone;
  }

  lemma RunOfOne(s: State, ev: Event)
    ensures Run(s, [ev]) == Step(s, ev)
  {
    hide Step;
    assert Run(Step(s, ev), []) == Step(s, ev);
  }

  lemma OneIsForward(s: State, ev: Event, me: Taker)
    requires Forward(s, ev, me)
    ensures AllForward(s, [ev], me)
  {
    hide Step;
    assert AllForward(Step(s, ev), [], me);
  }

  lemma StepLeads(s: State, ev: Event, me: Taker)
    requires Healthy(s) && Forward(s, ev, me)
    ensures Leads(s, [ev], Step(s, ev), me)
  {
    assert !BreaksOff(ev);
    hide Healthy, Step, BooksMatch, SameMessages, Run, Forward, AllForward;
    StepIsHealthy(s, ev);
    HasBooks(s);
    ForwardKeepsMessages(s, ev, me);
    RunOfOne(s, ev);
    OneIsForward(s, ev, me);
  }

  /** What a continuation gives. */
  lemma Led(s: State, events: seq<Event>, t: State, me: Taker)
    requires Leads(s, events, t, me)
    ensures AllForward(s, events, me) && t == Run(s, events) && Healthy(t) && SameMessages(s, t)
  {
    hide Healthy, SameMessages, Run, AllForward;
  }

  lemma NothingLeads(s: State, me: Taker)
    requires Healthy(s)
    ensures Leads(s, [], s, me) && Run(s, []) == s
  {
    hide Healthy;
  }

  lemma {:induction false} RunConcat(s: State, a: seq<Event>, b: seq<Event>)
    ensures Run(s, a + b) == Run(Run(s, a), b)
    decreases |a|
  {
    if a == [] {
      assert a + b == b;
    } else {
      hide Step;
      RunConcat(Step(s, a[0]), a[1..], b);
      assert (a + b)[1..] == a[1..] + b;
    }
  }

  lemma {:induction false} ForwardConcat(s: State, a: seq<Event>, b: seq<Event>, me: Taker)
    requires AllForward(s, a, me) && AllForward(Run(s, a), b, me)
    ensures AllForward(s, a + b, me)
    decreases |a|
  {
    hide Step, Forward;
    if a == [] {
      assert a + b == b;
    } else {
      ForwardConcat(Step(s, a[0]), a[1..], b, me);
      assert (a + b)[1..] == a[1..] + b;
    }
  }

  lemma LeadsOn(s: State, a: seq<Event>, t: State, b: seq<Event>, u: State, me: Taker)
    requires Leads(s, a, t, me) && Leads(t, b, u, me)
    ensures Leads(s, a + b, u, me)
  {
    hide Run, Healthy, AllForward;
    RunConcat(s, a, b);
    ForwardConcat(s, a, b, me);
  }

  /** One step more. */
  lemma ThenStep(s: State, a: seq<Event>, t: State, ev: Event, me: Taker)
    requires Leads(s, a, t, me) && Forward(t, ev, me)
    ensures Leads(s, a + [ev], Step(t, ev), me)
  {
    hide *;
    Led(s, a, t, me);
    StepLeads(t, ev, me);
    LeadsOn(s, a, t, [ev], Step(t, ev), me);
  }

  // ---- Promotions end ----------------------------------------------------------------

  /** The appends of a promotion leave everything but the stream, the record and the promotion as it was. */
  lemma {:induction false} AppendAllIsLocal(s: State, name: string)
    requires name in s.consumers
    ensures var t := AppendAll(s, name);
      && t.server == s.server.(stream := t.server.stream, lastId := t.server.lastId)
      && t.consumers == s.consumers[name := s.consumers[name].(promoting := [])]
    decreases |s.consumers[name].promoting|
  {
    if s.consumers[name].promoting == [] {
      assert s.consumers[name].(promoting := []) == s.consumers[name];
      assert s.consumers[name := s.consumers[name]] == s.consumers;
    } else {
      AppendAllIsLocal(Promoted(s, name), name);
    }
  }

  lemma {:induction false} AppendsLead(s: State, name: string, n: nat, me: Taker)
    requires Healthy(s)
    ensures Leads(s, Appends(name, n), Run(s, Appends(name, n)), me)
    decreases n
  {
    if n == 0 {
      hide Healthy;
    } else {
      hide Healthy, Step, Run, SameMessages;
      assert Forward(s, AppendOne(name), me);
      hide Forward, AllForward;
      StepLeads(s, AppendOne(name), me);
      var t := Step(s, AppendOne(name));
      assert Healthy(t) by { hide SameMessages; }
      AppendsLead(t, name, n - 1, me);
      LeadsOn(s, [AppendOne(name)], t, Appends(name, n - 1), Run(t, Appends(name, n - 1)), me);
    }
  }

  /** `t` is `s` with the promotions in `ended` carried to their end. */
  ghost predicate Ended(s: State, t: State, ended: set<string>) {
    && t.server == s.server.(stream := t.server.stream, lastId := t.server.lastId)
    && t.consumers.Keys == s.consumers.Keys
    && forall i :: i in s.consumers ==>
         t.consumers[i] == if i in ended then s.consumers[i].(promoting := []) else s.consumers[i]
  }

  lemma EndsOne(s: State, i: string, me: Taker)
    requires Healthy(s) && i in s.consumers
    ensures var events := Appends(i, |s.consumers[i].promoting|);
      Leads(s, events, Run(s, events), me) && Ended(s, Run(s, events), {i})
  {
    hide *;
    AppendAllIsRun(s, i);
    AppendAllIsLocal(s, i);
    LocalIsEnded(s, i, AppendAll(s, i));
    AppendsLead(s, i, |s.consumers[i].promoting|, me);
  }

  lemma LocalIsEnded(s: State, i: string, t: State)
    requires i in s.consumers && t.server == s.server.(stream := t.server.stream, lastId := t.server.lastId)
    requires t.consumers == s.consumers[i := s.consumers[i].(promoting := [])]
    ensures Ended(s, t, {i})
  {
    assert t.consumers.Keys == s.consumers.Keys;
  }

  lemma EndedOn(s: State, t: State, u: State, a: set<string>, b: set<string>)
    requires Ended(s, t, a) && Ended(t, u, b)
    ensures Ended(s, u, a + b)
  {
  }

  /** Every promotion under way can be carried to its end. */
  lemma {:induction false} Flushes(s: State, open: set<string>, me: Taker) returns (events: seq<Event>)
    requires Healthy(s) && open <= s.consumers.Keys
    ensures Leads(s, events, Run(s, events), me) && Ended(s, Run(s, events), open)
    decreases |open|
  {
    hide *;
    if open == {} {
      events := [];
      NothingLeads(s, me);
      NoneEnded(s);
    } else {
      var i :| i in open;
      var first := Appends(i, |s.consumers[i].promoting|);
      var u := Run(s, first);
      EndsOne(s, i, me);
      Led(s, first, u, me);
      EndedKeys(s, u, {i});
      var rest := Flushes(u, open - {i}, me);
      var t := Run(u, rest);
      LeadsOn(s, first, u, rest, t, me);
      EndedOn(s, u, t, {i}, open - {i});
      assert {i} + (open - {i}) == open;
      events := first + rest;
      Led(s, events, t, me);
    }
  }

  lemma NoneEnded(s: State)
    ensures Ended(s, s, {})
  {
  }

  lemma EndedKeys(s: State, t: State, ended: set<string>)
    requires Ended(s, t, ended)
    ensures t.consumers.Keys == s.consumers.Keys
  {
  }

  // ---- Time passes -------------------------------------------------------------------

  lemma {:induction false} Bounded(m: map<nat, real>) returns (bound: real)
    ensures forall k :: k in m ==> m[k] <= bound
    decreases |m|
  {
    bound := 0.0;
    if m != map[] {
      var k :| k in m;
      var rest := m - {k};
      assert k !in rest && m == rest[k := m[k]] && |rest| < |m|;
      bound := Bounded(rest);
      bound := if bound < m[k] then m[k] else bound;
    }
  }

  /** Every delayed copy is due, and every pending entry has idled long enough. */
  ghost predicate Ripe(server: Server, minIdle: real) {
    && (forall c :: c in server.delayed ==> server.delayed[c] <= server.clock)
    && (forall id :: id in server.pel ==> server.clock - server.pel[id] >= minIdle)
  }

  lemma Ripens(s: State, minIdle: real) returns (elapsed: real)
    ensures Ripe(Step(s, Tick(elapsed)).server, minIdle) && Step(s, Tick(elapsed)).consumers == s.consumers
  {
    var due := Bounded(s.server.delayed);
    var idle := Bounded(s.server.pel);
    var a, b := due - s.server.clock, idle + minIdle - s.server.clock;
    elapsed := if a < 0.0 && b < 0.0 then 0.0 else if a < b then b else a;
  }

  // ---- Promoted, reclaimed, read -----------------------------------------------------

  ghost predicate Increasing(r: seq<nat>) { forall i, j :: 0 <= i < j < |r| ==> r[i] < r[j] }

  lemma IncreasingFrom(x: nat, rest: seq<nat>)
    requires Increasing(rest) && forall i :: 0 <= i < |rest| ==> x < rest[i]
    ensures Increasing([x] + rest)
  {
  }

  lemma LeastIsFirst(ids: set<nat>)
    requires ids != {}
    ensures var rest := Ascending(ids - {Least(ids)}); forall i :: 0 <= i < |rest| ==> Least(ids) < rest[i]
  {
    var x := Least(ids);
    var rest := Ascending(ids - {x});
    forall i | 0 <= i < |rest| ensures x < rest[i] {
      assert rest[i] in ids - {x};
    }
  }

  /** Ascending, and empty only for the empty set. */
  lemma {:induction false} AscendingFacts(ids: set<nat>)
    ensures Increasing(Ascending(ids)) && (Ascending(ids) == [] <==> ids == {})
    decreases |ids|
  {
    hide Increasing;
    if ids == {} {
      assert Increasing([]) by { IncreasingNone(); }
    } else {
      AscendingFacts(ids - {Least(ids)});
      LeastIsFirst(ids);
      IncreasingFrom(Least(ids), Ascending(ids - {Least(ids)}));
    }
  }

  lemma IncreasingNone()
    ensures Increasing([])
  {
  }

  /** All that is delayed is popped at once. */
  lemma PopsAll(s: State, name: string, minIdle: real)
    requires Ripe(s.server, minIdle) && name in s.consumers && s.consumers[name].promoting == []
    ensures var t := Step(s, PopDue(name, Ascending(s.server.delayed.Keys)));
      && t.server == s.server.(delayed := map[])
      && t.consumers.Keys == s.consumers.Keys
      && forall i :: i in s.consumers ==>
           t.consumers[i].batch == s.consumers[i].batch && t.consumers[i].inFlight == s.consumers[i].inFlight
           && t.consumers[i].closing == s.consumers[i].closing
  {
    var order := Ascending(s.server.delayed.Keys);
    AscendingFacts(s.server.delayed.Keys);
    assert CanPop(s, name, order) by {
      assert forall i :: 0 <= i < |order| ==> order[i] in s.server.delayed.Keys;
    }
    hide Ascending;
    assert (map c | c in s.server.delayed && c !in order :: s.server.delayed[c]) == map[];
  }

  function BatchOf(s: State, name: string): seq<nat> {
    if name in s.consumers then s.consumers[name].batch else []
  }

  /** A consumer has started that nothing stops: all it can pull, it can pull now. */
  ghost predicate Ready(s: State, me: Taker) {
    && me.name in s.consumers && !s.consumers[me.name].closing
    && s.server.delayed == map[] && (forall i :: i in s.consumers ==> s.consumers[i].promoting == [])
    && (forall id :: id in s.consumers[me.name].batch ==> id in s.log.held)
    && (forall id :: id in s.server.pel ==>
          id in s.consumers[me.name].batch || s.server.clock - s.server.pel[id] >= me.minIdle)
  }

  lemma StartsEmpty(s: State, name: string)
    requires name !in s.consumers
    ensures name in Step(s, Start(name)).consumers
    ensures Step(s, Start(name)).consumers[name] == Consumer([], [], {}, false)
  {
  }

  lemma FlushedIsReady(s: State, t: State, me: Taker)
    requires Ended(s, t, s.consumers.Keys) && Ripe(s.server, me.minIdle) && s.server.delayed == map[]
    requires me.name in s.consumers && s.consumers[me.name].batch == [] && !s.consumers[me.name].closing
    ensures Ready(t, me) && t.consumers[me.name].batch == []
  {
  }

  /** A consumer starts, time passes, and whatever is delayed or being promoted reaches the stream. */
  lemma Readies(s: State, me: Taker) returns (events: seq<Event>)
    requires Healthy(s) && me.name !in s.consumers
    ensures var t := Run(s, events);
      Leads(s, events, t, me) && Ready(t, me) && t.consumers[me.name].batch == []
  {
    var start := Start(me.name);
    var a := Step(s, start);
    var elapsed := Ripens(a, me.minIdle);
    var tick := Tick(elapsed);
    var b := Step(a, tick);
    var pop := PopDue(me.name, Ascending(b.server.delayed.Keys));
    var c := Step(b, pop);
    StartsEmpty(s, me.name);
    PopsAll(b, me.name, me.minIdle);
    assert Ripe(c.server, me.minIdle);
    assert Forward(s, start, me) && Forward(a, tick, me) && Forward(b, pop, me);
    hide Healthy, Step, Run, Leads, SameMessages, Ascending, Forward, Ripe, Ready;
    StepLeads(s, start, me);
    ThenStep(s, [start], a, tick, me);
    ThenStep(s, [start] + [tick], b, pop, me);
    Led(s, [start] + [tick] + [pop], c, me);
    var rest := Flushes(c, c.consumers.Keys, me);
    LeadsOn(s, [start] + [tick] + [pop], c, rest, Run(c, rest), me);
    events := [start] + [tick] + [pop] + rest;
    Led(s, events, Run(c, rest), me);
    FlushedIsReady(c, Run(c, rest), me);
  }

  // ---- One entry handled -------------------------------------------------------------

  /** Handled and acked, or discarded when it does not decode. */
  function Handling(s: State, name: string): seq<Event>
    requires name in s.consumers && s.consumers[name].batch != []
  {
    var id, n := s.consumers[name].batch[0], s.nextTask;
    if id in s.log.held && s.log.held[id] in s.log.content && s.log.content[s.log.held[id]].decodes
    then [Yield(name)] + ([Ack(name, id)] + ([Advance(n)] + [Advance(n)]))
    else [Yield(name)] + [Advance(n)]
  }

  /** `t` is `s` after the first entry of the batch was handled. */
  ghost predicate OneHandled(s: State, t: State, name: string)
    requires name in s.consumers && s.consumers[name].batch != []
  {
    var c, id := s.consumers[name], s.consumers[name].batch[0];
    && (t.server.stream == s.server.stream || t.server.stream == s.server.stream - {id})
    && t.server == s.server.(pel := s.server.pel - {id}, stream := t.server.stream)
    && name in t.consumers && t.consumers == s.consumers[name := t.consumers[name]]
    && t.consumers[name] == c.(batch := c.batch[1..], inFlight := t.consumers[name].inFlight)
  }

  /** The states an ack and its two commands go through. */
  lemma AckSteps(s: State, me: Taker, id: nat)
    requires Healthy(s) && me.name in s.consumers && id in s.consumers[me.name].inFlight && id in s.log.held
    ensures var a, n := Step(s, Ack(me.name, id)), s.nextTask;
      var b := Step(a, Advance(n));
      var t := Step(b, Advance(n));
      && Forward(s, Ack(me.name, id), me) && Forward(a, Advance(n), me) && Forward(b, Advance(n), me)
      && t.server == s.server.(pel := s.server.pel - {id}, stream := s.server.stream - {id})
      && t.consumers
           == s.consumers[me.name := s.consumers[me.name].(inFlight := s.consumers[me.name].inFlight - {id})]
  {
    var n := s.nextTask;
    assert Forward(s, Ack(me.name, id), me);
    HeldIsKnown(s, id);
    SettleEffect(s, me.name, id, 0.0);
    hide Healthy, Step, Enqueue, Forward;
    var a := Step(s, Ack(me.name, id));
    CommandEffect(a, n);
    CommandIsForward(a, n, me);
    CommandEffect(Step(a, Advance(n)), n);
    CommandIsForward(Step(a, Advance(n)), n, me);
  }

  lemma CommandIsForward(s: State, n: nat, me: Taker)
    requires n in s.tasks && s.tasks[n].owner == me.name && !s.tasks[n].work.Moving?
    ensures Forward(s, Advance(n), me)
  {
  }

  /** An ack of a delivery in hand, with its two commands. */
  lemma AckLeads(s: State, me: Taker, id: nat)
    requires Healthy(s) && me.name in s.consumers && id in s.consumers[me.name].inFlight && id in s.log.held
    ensures var n := s.nextTask;
      var events := [Ack(me.name, id)] + ([Advance(n)] + [Advance(n)]);
      var t := Run(s, events);
      && Leads(s, events, t, me)
      && t.server == s.server.(pel := s.server.pel - {id}, stream := s.server.stream - {id})
      && t.consumers
           == s.consumers[me.name := s.consumers[me.name].(inFlight := s.consumers[me.name].inFlight - {id})]
  {
    hide *;
    var ack, n := Ack(me.name, id), s.nextTask;
    AckSteps(s, me, id);
    var a := Step(s, ack);
    var b := Step(a, Advance(n));
    StepLeads(s, ack, me);
    ThenStep(s, [ack], a, Advance(n), me);
    ThenStep(s, [ack] + [Advance(n)], b, Advance(n), me);
    assert [ack] + ([Advance(n)] + [Advance(n)]) == [ack] + [Advance(n)] + [Advance(n)];
    Led(s, [ack] + [Advance(n)] + [Advance(n)], Step(b, Advance(n)), me);
  }

  /** The first entry of the batch is known and decodes, or does not. */
  predicate FirstDecodes(s: State, name: string, decodes: bool) {
    && name in s.consumers && s.consumers[name].batch != [] && !s.consumers[name].closing
    && var id := s.consumers[name].batch[0];
       && id in s.log.held && s.log.held[id] in s.log.content
       && s.log.content[s.log.held[id]].decodes == decodes
  }

  lemma YieldStep(s: State, name: string)
    requires Healthy(s) && FirstDecodes(s, name, true)
    ensures var a, id := Step(s, Yield(name)), s.consumers[name].batch[0];
      && a.nextTask == s.nextTask && name in a.consumers && id in a.consumers[name].inFlight && id in a.log.held
      && a.server == s.server && a.consumers == s.consumers[name := a.consumers[name]]
      && a.consumers[name]
           == s.consumers[name].(batch := s.consumers[name].batch[1..], inFlight := a.consumers[name].inFlight)
  {
    hide Healthy;
  }

  lemma HandlesDecoded(s: State, me: Taker)
    requires Healthy(s) && FirstDecodes(s, me.name, true)
    ensures var events := Handling(s, me.name);
      Leads(s, events, Run(s, events), me) && OneHandled(s, Run(s, events), me.name)
  {
    var name, id, n := me.name, s.consumers[me.name].batch[0], s.nextTask;
    var a := Step(s, Yield(name));
    var rest := [Ack(name, id)] + ([Advance(n)] + [Advance(n)]);
    assert Handling(s, name) == [Yield(name)] + rest && Forward(s, Yield(name), me);
    YieldStep(s, name);
    hide Step, Healthy, SameMessages, Leads, Run, Handling, FirstDecodes, Forward;
    StepLeads(s, Yield(name), me);
    Led(s, [Yield(name)], a, me);
    AckLeads(a, me, id);
    LeadsOn(s, [Yield(name)], a, rest, Run(a, rest), me);
    Led(s, [Yield(name)] + rest, Run(a, rest), me);
    OneIsHandled(s, a, Run(a, rest), name);
  }

  lemma OneIsHandled(s: State, a: State, t: State, name: string)
    requires name in s.consumers && s.consumers[name].batch != [] && name in a.consumers
    requires a.server == s.server && a.consumers == s.consumers[name := a.consumers[name]]
    requires a.consumers[name]
          == s.consumers[name].(batch := s.consumers[name].batch[1..], inFlight := a.consumers[name].inFlight)
    requires var id := s.consumers[name].batch[0];
      && t.server == a.server.(pel := a.server.pel - {id}, stream := a.server.stream - {id})
      && t.consumers == a.consumers[name := a.consumers[name].(inFlight := a.consumers[name].inFlight - {id})]
    ensures OneHandled(s, t, name)
  {
  }

  lemma DiscardSteps(s: State, name: string, me: Taker)
    requires Healthy(s) && FirstDecodes(s, name, false) && name == me.name
    ensures var a, n := Step(s, Yield(name)), s.nextTask;
      && Forward(s, Yield(name), me) && Forward(a, Advance(n), me)
      && OneHandled(s, Step(a, Advance(n)), name)
  {
    YieldEffect(s, name);
    hide Healthy, Advanced;
  }

  lemma HandlesPoison(s: State, me: Taker)
    requires Healthy(s) && FirstDecodes(s, me.name, false)
    ensures var events := Handling(s, me.name);
      Leads(s, events, Run(s, events), me) && OneHandled(s, Run(s, events), me.name)
  {
    var name, n := me.name, s.nextTask;
    assert Handling(s, name) == [Yield(name)] + [Advance(n)];
    DiscardSteps(s, name, me);
    hide Step, Healthy, SameMessages, Leads, Run, Forward, Handling, OneHandled;
    var a := Step(s, Yield(name));
    StepLeads(s, Yield(name), me);
    ThenStep(s, [Yield(name)], a, Advance(n), me);
    Led(s, [Yield(name)] + [Advance(n)], Step(a, Advance(n)), me);
  }

  /** What handling entries changes: pending ids and stream entries go, and those of the batch are done. */
  ghost predicate Handled(s: State, t: State, me: Taker) {
    && me.name in s.consumers && Ready(t, me)
    && t.server.lastRead == s.server.lastRead && t.server.stream.Keys <= s.server.stream.Keys
    && forall id :: id in t.server.pel ==>
         id in s.server.pel && (id in s.consumers[me.name].batch ==> id in t.consumers[me.name].batch)
  }

  lemma OneHandledIsHandled(s: State, t: State, me: Taker)
    requires Ready(s, me) && s.consumers[me.name].batch != [] && OneHandled(s, t, me.name) && SameMessages(s, t)
    ensures Handled(s, t, me) && t.consumers[me.name].batch == s.consumers[me.name].batch[1..]
  {
    var batch := s.consumers[me.name].batch;
    assert forall id :: id in batch <==> id == batch[0] || id in batch[1..];
    forall i | i in t.consumers ensures t.consumers[i].promoting == [] {
      assert i in s.consumers;
    }
  }

  lemma HandlesOne(s: State, me: Taker)
    requires Healthy(s) && Ready(s, me) && s.consumers[me.name].batch != []
    ensures var events := Handling(s, me.name);
      var t := Run(s, events);
      && Leads(s, events, t, me) && Handled(s, t, me)
      && t.consumers[me.name].batch == s.consumers[me.name].batch[1..]
  {
    var id, events := s.consumers[me.name].batch[0], Handling(s, me.name);
    assert id in s.log.held;
    HeldIsKnown(s, id);
    assert FirstDecodes(s, me.name, s.log.content[s.log.held[id]].decodes);
    hide Healthy, Leads, Run, Handling, OneHandled, Handled, SameMessages, FirstDecodes;
    if s.log.content[s.log.held[id]].decodes {
      HandlesDecoded(s, me);
    } else {
      HandlesPoison(s, me);
    }
    Led(s, events, Run(s, events), me);
    OneHandledIsHandled(s, Run(s, events), me);
  }

  lemma HandledOn(s: State, t: State, u: State, me: Taker)
    requires Handled(s, t, me) && Handled(t, u, me)
    ensures Handled(s, u, me)
  {
  }

  lemma ReadyIsHandled(s: State, me: Taker)
    requires Ready(s, me)
    ensures Handled(s, s, me)
  {
  }

  /** The whole batch is handled, one entry after the other. */
  lemma {:induction false} HandlesAll(s: State, me: Taker) returns (events: seq<Event>)
    requires Healthy(s) && Ready(s, me)
    ensures var t := Run(s, events);
      Leads(s, events, t, me) && Handled(s, t, me) && BatchOf(t, me.name) == []
    decreases |BatchOf(s, me.name)|
  {
    if BatchOf(s, me.name) == [] {
      hide *;
      events := [];
      NothingLeads(s, me);
      ReadyIsHandled(s, me);
    } else {
      var first := Handling(s, me.name);
      var t := Run(s, first);
      HandlesOne(s, me);
      assert Ready(t, me) && |BatchOf(t, me.name)| < |BatchOf(s, me.name)|;
      hide *;
      Led(s, first, t, me);
      var rest := HandlesAll(t, me);
      var u := Run(t, rest);
      LeadsOn(s, first, t, rest, u, me);
      HandledOn(s, t, u, me);
      events := first + rest;
      Led(s, events, u, me);
    }
    hide *;
  }

  // ---- One pull ----------------------------------------------------------------------

  /** The oldest pending ids, as many as one reclaim takes. */
  function Oldest(server: Server, size: nat): (ids: seq<nat>)
    ensures |ids| <= size && (forall i :: 0 <= i < |ids| ==> ids[i] in server.pel)
    ensures server.pel != map[] && size > 0 ==> ids != []
  {
    var all := Ascending(server.pel.Keys);
    assert forall i :: 0 <= i < |all| ==> all[i] in server.pel.Keys;
    assert server.pel != map[] ==> all != [] by { AscendingFacts(server.pel.Keys); }
    if size < |all| then all[..size] else all
  }

  lemma {:induction false} PresentHolds(stream: map<nat, nat>, ids: seq<nat>, id: nat)
    requires id in ids && id in stream
    ensures id in Present(stream, ids)
  {
    if ids[0] != id {
      PresentHolds(stream, ids[1..], id);
    }
  }

  lemma PullIsForward(s: State, me: Taker)
    ensures Forward(s, Reclaim(me.name, Oldest(s.server, me.size), me.minIdle), me)
    ensures Forward(s, Read(me.name, me.size), me)
  {
  }

  lemma CanReclaimOldest(s: State, me: Taker)
    requires Ready(s, me) && BatchOf(s, me.name) == []
    ensures CanReclaim(s, me.name, Oldest(s.server, me.size), me.minIdle)
  {
    hide Oldest;
  }

  /** `t` is `s` with more in the batch of `name`, and as pending what was or what joined the batch. */
  ghost predicate Gathered(s: State, t: State, name: string) {
    && name in s.consumers && t.log == s.log
    && t.server == s.server.(pel := t.server.pel, lastRead := t.server.lastRead)
    && t.consumers == s.consumers[name := s.consumers[name].(batch := BatchOf(t, name))]
    && (forall id :: id in BatchOf(s, name) ==> id in BatchOf(t, name))
    && (forall id :: id in BatchOf(t, name) && id !in BatchOf(s, name) ==> id in s.server.stream)
    && (forall id :: id in t.server.pel && id !in BatchOf(t, name) ==>
          id in s.server.pel && t.server.pel[id] == s.server.pel[id])
  }

  lemma GatheredIsReady(s: State, t: State, me: Taker)
    requires Healthy(s) && Ready(s, me) && Gathered(s, t, me.name)
    ensures Ready(t, me)
  {
    forall id | id in s.server.stream ensures id in s.log.held { StreamIsKnown(s, id); }
    hide Healthy;
  }

  lemma ReclaimGathers(s: State, me: Taker)
    requires me.name in s.consumers && CanReclaim(s, me.name, Oldest(s.server, me.size), me.minIdle)
    ensures var ids := Oldest(s.server, me.size);
      var t := Reclaimed(s, me.name, ids, me.minIdle);
      && Gathered(s, t, me.name) && t.server == s.server.(pel := t.server.pel)
      && forall id :: id in t.server.pel ==> id in s.server.pel && (id in ids ==> id in BatchOf(t, me.name))
  {
    var ids := Oldest(s.server, me.size);
    forall id | id in ids && id in s.server.stream ensures id in Present(s.server.stream, ids) {
      PresentHolds(s.server.stream, ids, id);
    }
    hide Oldest, Present, CanReclaim;
  }

  lemma StepOfPull(s: State, name: string, ids: seq<nat>, minIdle: real, count: nat)
    ensures Step(s, Reclaim(name, ids, minIdle)) == Reclaimed(s, name, ids, minIdle)
    ensures name in s.consumers ==> Step(s, Read(name, count)) == ReadUpTo(s, name, Reach(s.server, count))
  {
    hide Reclaimed, ReadUpTo, Reach;
  }

  /** The oldest pending entries join the batch, or leave the pending list when they were deleted. */
  lemma Reclaims(s: State, me: Taker)
    requires Healthy(s) && Ready(s, me) && BatchOf(s, me.name) == []
    ensures var ids := Oldest(s.server, me.size);
      var reclaim := Reclaim(me.name, ids, me.minIdle);
      var t := Step(s, reclaim);
      && Forward(s, reclaim, me) && Ready(t, me)
      && t.server == s.server.(pel := t.server.pel)
      && forall id :: id in t.server.pel ==> id in s.server.pel && (id in ids ==> id in BatchOf(t, me.name))
  {
    assert me.name in s.consumers;
    PullIsForward(s, me);
    hide *;
    CanReclaimOldest(s, me);
    ReclaimGathers(s, me);
    StepOfPull(s, me.name, Oldest(s.server, me.size), me.minIdle, me.size);
    GatheredIsReady(s, Reclaimed(s, me.name, Oldest(s.server, me.size), me.minIdle), me);
  }

  lemma StreamIsKnown(s: State, id: nat)
    requires Healthy(s) && id in s.server.stream
    ensures id in s.log.held
  {
    hide DelaysMatch, DelaysAlone, TasksMatch, AllDeliverable;
  }

  lemma ReachIsUnread(server: Server, count: nat)
    requires count > 0 && Unread(server) != {}
    ensures Reach(server, count) in Unread(server)
  {
    AscendingFacts(Unread(server));
    var ids := Ascending(Unread(server));
    assert forall i :: 0 <= i < |ids| ==> ids[i] in Unread(server);
  }

  lemma ReadGathers(s: State, name: string, upTo: nat)
    requires name in s.consumers && upTo >= s.server.lastRead
    ensures var t := ReadUpTo(s, name, upTo);
      && Gathered(s, t, name) && t.server.lastRead == upTo && t.server.stream == s.server.stream
      && (forall id :: id in BatchOf(s, name) ==> id in BatchOf(t, name))
      && forall id :: id in t.server.pel ==> id in s.server.pel || id in BatchOf(t, name)
  {
    var ids := UnreadTo(s.server, upTo);
    assert forall id :: id in Ascending(ids) <==> id in ids;
    hide Ascending;
  }

  /** The oldest unread entries join the batch and the pending list. */
  lemma Reads(s: State, me: Taker)
    requires Healthy(s) && Ready(s, me)
    ensures var t := Step(s, Read(me.name, me.size));
      && Forward(s, Read(me.name, me.size), me) && Ready(t, me) && t.server.stream == s.server.stream
      && (forall id :: id in BatchOf(s, me.name) ==> id in BatchOf(t, me.name))
      && (forall id :: id in t.server.pel ==> id in s.server.pel || id in BatchOf(t, me.name))
      && t.server.lastRead == Reach(s.server, me.size)
  {
    assert me.name in s.consumers;
    PullIsForward(s, me);
    hide *;
    ReadGathers(s, me.name, Reach(s.server, me.size));
    StepOfPull(s, me.name, [], 0.0, me.size);
    GatheredIsReady(s, ReadUpTo(s, me.name, Reach(s.server, me.size)), me);
  }

  /** What is left to pull. */
  function Left(server: Server): nat { |server.pel.Keys| + |Unread(server)| }

  lemma {:induction false} FewerIds(a: set<nat>, b: set<nat>)
    requires a <= b
    ensures |a| <= |b| && (a != b ==> |a| < |b|)
  {
    assert b == a + (b - a);
  }

  /** `t` is `s` after a pull whose batch was handled. */
  lemma LessIsLeft(s: State, t: State, u: State, v: State, me: Taker)
    requires me.size > 0 && BatchOf(v, me.name) == []
    requires t.server == s.server.(pel := t.server.pel) && Handled(u, v, me) && u.server.stream == t.server.stream
    requires forall id :: id in t.server.pel ==>
      id in s.server.pel && (id in Oldest(s.server, me.size) ==> id in BatchOf(t, me.name))
    requires forall id :: id in BatchOf(t, me.name) ==> id in BatchOf(u, me.name)
    requires forall id :: id in u.server.pel ==> id in t.server.pel || id in BatchOf(u, me.name)
    requires u.server.lastRead == Reach(t.server, me.size)
    ensures Left(s.server) > 0 ==> Left(v.server) < Left(s.server)
  {
    hide Reach, Oldest;
    var ids := Oldest(s.server, me.size);
    forall id | id in v.server.pel ensures id in s.server.pel && id !in ids {
      assert id !in BatchOf(u, me.name);
    }
    assert v.server.pel.Keys <= s.server.pel.Keys && Unread(v.server) <= Unread(s.server);
    FewerIds(v.server.pel.Keys, s.server.pel.Keys);
    FewerIds(Unread(v.server), Unread(s.server));
    assert Unread(t.server) == Unread(s.server);
    if s.server.pel != map[] {
      assert ids[0] in s.server.pel.Keys && ids[0] !in v.server.pel.Keys;
    } else if Unread(s.server) != {} {
      ReachIsUnread(t.server, me.size);
      assert v.server.lastRead == Reach(t.server, me.size);
      assert Reach(t.server, me.size) !in Unread(v.server);
    }
  }

  /** One pull, handled: less is left. */
  lemma Pulls(s: State, me: Taker) returns (events: seq<Event>)
    requires Healthy(s) && Ready(s, me) && BatchOf(s, me.name) == [] && me.size > 0
    ensures var t := Run(s, events);
      && Leads(s, events, t, me) && Ready(t, me) && BatchOf(t, me.name) == []
      && (Left(s.server) > 0 ==> Left(t.server) < Left(s.server))
  {
    var reclaim := Reclaim(me.name, Oldest(s.server, me.size), me.minIdle);
    var t := Step(s, reclaim);
    Reclaims(s, me);
    hide Healthy, Step, Run, Leads, SameMessages, Oldest, Reach, Forward, Left;
    StepLeads(s, reclaim, me);
    Led(s, [reclaim], t, me);
    var read := Read(me.name, me.size);
    var u := Step(t, read);
    Reads(t, me);
    ThenStep(s, [reclaim], t, read, me);
    Led(s, [reclaim] + [read], u, me);
    var rest := HandlesAll(u, me);
    var v := Run(u, rest);
    LeadsOn(s, [reclaim] + [read], u, rest, v, me);
    events := [reclaim] + [read] + rest;
    Led(s, events, v, me);
    LessIsLeft(s, t, u, v, me);
    HandledIsReady(u, v, me);
  }

  lemma HandledIsReady(s: State, t: State, me: Taker)
    requires Handled(s, t, me)
    ensures Ready(t, me)
  {
  }

  // ---- Until nothing is left ---------------------------------------------------------

  lemma {:induction false} PullsAll(s: State, me: Taker) returns (events: seq<Event>)
    requires Healthy(s) && Ready(s, me) && BatchOf(s, me.name) == [] && me.size > 0
    ensures var t := Run(s, events); Leads(s, events, t, me) && Ready(t, me) && Left(t.server) == 0
    decreases Left(s.server)
  {
    hide *;
    if Left(s.server) == 0 {
      events := [];
      NothingLeads(s, me);
    } else {
      var first := Pulls(s, me);
      var t := Run(s, first);
      Led(s, first, t, me);
      var rest := PullsAll(t, me);
      LeadsOn(s, first, t, rest, Run(t, rest), me);
      events := first + rest;
      Led(s, events, Run(t, rest), me);
    }
  }

  /** Nothing delayed, promoted, pending or unread: every newest decodable copy was acked. */
  lemma NothingIsOwed(s: State, me: Taker, copy: nat)
    requires Healthy(s) && Ready(s, me) && Left(s.server) == 0
    requires Newest(s.log, copy) && s.log.content[copy].decodes
    ensures copy in s.log.acked
  {
    hide DelaysMatch, DelaysAlone, BooksMatch, TasksMatch;
    assert s.server.pel.Keys == {} && Unread(s.server) == {};
    forall id | id in s.server.stream ensures !Waiting(s.server, id) {
      assert id !in Unread(s.server) && id !in s.server.pel.Keys;
    }
    assert !Deliverable(s, copy);
  }

  /** After `more`, forward steps only, every newest decodable copy is acked; the acks made in it are the taker's. */
  ghost predicate Settles(s: State, more: seq<Event>, me: Taker) {
    && AllForward(s, more, me)
    && forall c: nat :: Newest(s.log, c) && s.log.content[c].decodes ==>
         Newest(Run(s, more).log, c) && c in Run(s, more).log.acked
  }

  lemma SameNewestAfter(s: State, t: State, copy: nat)
    requires SameMessages(s, t)
    ensures Newest(t.log, copy) <==> Newest(s.log, copy)
    ensures t.log.content == s.log.content
  {
  }

  lemma TakesAll(s: State, me: Taker) returns (more: seq<Event>)
    requires Healthy(s) && me.name !in s.consumers && me.size > 0
    ensures Settles(s, more, me)
  {
    hide Healthy, Run, SameMessages, Leads, Ready, AllForward, Left;
    var a := Readies(s, me);
    var t := Run(s, a);
    Led(s, a, t, me);
    var b := PullsAll(t, me);
    var u := Run(t, b);
    LeadsOn(s, a, t, b, u, me);
    more := a + b;
    Led(s, more, u, me);
    forall c: nat | Newest(s.log, c) && s.log.content[c].decodes ensures Newest(u.log, c) && c in u.log.acked {
      SameNewestAfter(s, u, c);
      NothingIsOwed(u, me, c);
    }
  }

  /**
   * Progress: after any run without a crash in the middle of a promotion, a consumer that starts,
   * whatever its batch size and idle time, can take into its hands, and ack, every newest decodable
   * copy that nobody acked before. No copy is beyond reach.
   */
  lemma EverythingCanBeHandled(start: State, events: seq<Event>, me: Taker)
    requires Initial(start) && CalmRun(start, events) && me.name !in Run(start, events).consumers && me.size > 0
    ensures exists more :: Settles(Run(start, events), more, me)
  {
    InitialIsSound(start);
    RunKeeps(start, events);
    RunKeepsDelays(start, events);
    var s := Run(start, events);
    assert Healthy(s) by { hide Sound, DelaysMatch, DelaysAlone, Run; }
    var more := TakesAll(s, me);
    hide *;
  }
}
