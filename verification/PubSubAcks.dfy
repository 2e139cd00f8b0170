/** How a message leaves a Pub/Sub subscription: only by the ack it is owed, and then for good. */
module PubSubAcks {
  import opened Common
  import opened PubSubRuns

  // ---- What leaves, and when ---------------------------------------------------------

  /** A message leaves the subscription exactly when an ack some live client has buffered for it is flushed. */
  lemma LeavesIff(s: State, ev: Event, copy: nat)
    requires copy in s.stored
    ensures copy !in Step(s, ev).stored <==>
      ev == Flush(ev.name, copy) && ev.name in s.clients && copy in s.clients[ev.name].acks
  {
  }

  lemma StaysOut(s: State, ev: Event, copy: nat)
    requires copy < s.log.copies && copy !in s.stored
    ensures var t := Step(s, ev); copy < t.log.copies && copy !in t.stored
  {
  }

  /** What has left is never stored again, and nobody gets it pushed. */
  lemma {:induction false} GoneForGood(s: State, events: seq<Event>, copy: nat)
    requires copy < s.log.copies && copy !in s.stored
    ensures var t := Run(s, events);
      copy !in t.stored && forall name :: Step(t, Push(name, copy)) == t
    decreases |events|
  {
    if events != [] {
      StaysOut(s, events[0], copy);
      hide Step;
      GoneForGood(Step(s, events[0]), events[1..], copy);
    }
  }

  // ---- What is settled ---------------------------------------------------------------

  /** The copies a step settles: acked in flight, replaced by a published copy, or taken without decoding. */
  function SettledBy(s: State, ev: Event): set<nat> {
    if ev.name !in s.clients then {}
    else
      var c := s.clients[ev.name];
      match ev
      case Ack(_, copy) => if copy in c.inFlight then {copy} else {}
      case Publish(_, copy) => if copy in c.publishing && copy in s.log.content then {copy} else {}
      case Take(_) =>
        if c.buffer == [] || c.closing || c.buffer[0] !in s.log.content || s.log.content[c.buffer[0]].decodes then {}
        else {c.buffer[0]}
      case _ => {}
  }

  function SettledIn(s: State, events: seq<Event>): set<nat>
    decreases |events|
  {
    if events == [] then {} else SettledBy(s, events[0]) + SettledIn(Step(s, events[0]), events[1..])
  }

  /** The acks that clients died with. */
  function LostIn(s: State, events: seq<Event>): set<nat>
    decreases |events|
  {
    if events == [] then {}
    else
      var ev := events[0];
      (if ev.Crash? && ev.name in s.clients then s.clients[ev.name].acks else {}) + LostIn(Step(s, ev), events[1..])
  }

  ghost predicate Buffered(s: State, copy: nat) { exists name :: Holds(s, name, copy) }

  ghost predicate Holds(s: State, name: string, copy: nat) { name in s.clients && copy in s.clients[name].acks }

  ghost predicate Leaving(s: State, copy: nat) { copy < s.log.copies && (copy !in s.stored || Buffered(s, copy)) }

  lemma SettledIsLeaving(s: State, ev: Event, copy: nat)
    requires Sound(s) && copy in SettledBy(s, ev)
    ensures Leaving(Step(s, ev), copy)
  {
    assert Holds(Step(s, ev), ev.name, copy);
  }

  lemma LeavingStays(s: State, ev: Event, copy: nat)
    requires Leaving(s, copy)
    ensures Leaving(Step(s, ev), copy) || (ev.Crash? && Holds(s, ev.name, copy))
  {
    if copy in s.stored {
      var name :| Holds(s, name, copy);
      HoldsUntil(s, ev, name, copy);
      KeepsCount(s, ev);
    } else {
      StaysOut(s, ev, copy);
    }
  }

  lemma KeepsCount(s: State, ev: Event)
    ensures s.log.copies <= Step(s, ev).log.copies
  {
  }

  /** A buffered ack stays until it is flushed or its client dies. */
  lemma HoldsUntil(s: State, ev: Event, name: string, copy: nat)
    requires Holds(s, name, copy)
    ensures Holds(Step(s, ev), name, copy) || ev == Crash(name)
         || (ev == Flush(name, copy) && copy !in Step(s, ev).stored)
  {
  }

  lemma {:induction false} LeavingEnds(s: State, events: seq<Event>, copy: nat)
    requires Leaving(s, copy)
    ensures Leaving(Run(s, events), copy) || copy in LostIn(s, events)
    decreases |events|
  {
    if events != [] {
      LeavingStays(s, events[0], copy);
      hide Step, Leaving;
      if Leaving(Step(s, events[0]), copy) {
        LeavingEnds(Step(s, events[0]), events[1..], copy);
      }
    }
  }

  /**
   * In every run, a settled copy (acked, rejected and replaced, or discarded as poison) has left
   * the subscription, or its ack is buffered in a live client, or a client died with that ack.
   */
  lemma {:induction false} SettledLeaves(s: State, events: seq<Event>, copy: nat)
    requires Sound(s) && copy in SettledIn(s, events)
    ensures var t := Run(s, events);
      copy !in t.stored || Buffered(t, copy) || copy in LostIn(s, events)
    decreases |events|
  {
    StepKeeps(s, events[0]);
    if copy in SettledBy(s, events[0]) {
      SettledIsLeaving(s, events[0], copy);
      LeavingEnds(Step(s, events[0]), events[1..], copy);
    } else {
      SettledLeaves(Step(s, events[0]), events[1..], copy);
    }
    hide Step, Sound;
  }

  /** What the record says was acked was settled. */
  lemma {:induction false} AckedIsSettled(s: State, events: seq<Event>)
    ensures Run(s, events).log.acked <= s.log.acked + SettledIn(s, events)
    decreases |events|
  {
    if events != [] {
      AckedGrows(s, events[0]);
      AckedIsSettled(Step(s, events[0]), events[1..]);
      hide Step, SettledBy;
    }
  }

  lemma AckedGrows(s: State, ev: Event)
    ensures Step(s, ev).log.acked <= s.log.acked + SettledBy(s, ev)
  {
  }

  /** So, from the start: an acked message still stored has its ack in a live client, or one died with it. */
  lemma AckedLeaves(s: State, events: seq<Event>, copy: nat)
    requires Initial(s) && copy in Run(s, events).log.acked
    ensures var t := Run(s, events);
      copy !in t.stored || Buffered(t, copy) || copy in LostIn(s, events)
  {
    AckedIsSettled(s, events);
    hide Step, SettledBy;
    SettledLeaves(s, events, copy);
  }

  // ---- Settle and flush --------------------------------------------------------------

  lemma {:induction false} HeldUntilFlushed(s: State, events: seq<Event>, name: string, copy: nat)
    requires copy < s.log.copies && Crash(name) !in events && name in s.clients
    requires Holds(s, name, copy) || copy !in s.stored
    ensures var t := Run(s, events);
      name in t.clients && copy < t.log.copies && (Holds(t, name, copy) || copy !in t.stored)
    decreases |events|
  {
    if events != [] {
      var t := Step(s, events[0]);
      KeepsCount(s, events[0]);
      StaysUp(s, events[0], name);
      if copy !in s.stored { StaysOut(s, events[0], copy); } else { HoldsUntil(s, events[0], name, copy); }
      hide Step, Holds;
      HeldUntilFlushed(t, events[1..], name, copy);
    }
  }

  lemma StaysUp(s: State, ev: Event, name: string)
    requires name in s.clients && ev != Crash(name)
    ensures name in Step(s, ev).clients
  {
  }

  lemma Flushed(s: State, name: string, copy: nat)
    requires name in s.clients && copy < s.log.copies && (Holds(s, name, copy) || copy !in s.stored)
    ensures var t := Step(s, Flush(name, copy)); copy !in t.stored && t.log == s.log
  {
  }

  /**
   * After an ack, a published reject or a discarded poison message, once the same live client has
   * flushed that ack, however much happens in between, the message is gone in every continuation.
   */
  lemma SettledThenFlushed(s: State, ev: Event, copy: nat, between: seq<Event>, after: seq<Event>)
    requires Sound(s) && copy in SettledBy(s, ev) && Crash(ev.name) !in between
    ensures var t := Step(Run(Step(s, ev), between), Flush(ev.name, copy));
      && copy !in t.stored && copy !in Run(t, after).stored
      && forall name :: Step(Run(t, after), Push(name, copy)) == Run(t, after)
  {
    SettledHolds(s, ev, copy);
    HeldUntilFlushed(Step(s, ev), between, ev.name, copy);
    var u := Run(Step(s, ev), between);
    hide *;
    Flushed(u, ev.name, copy);
    GoneForGood(Step(u, Flush(ev.name, copy)), after, copy);
  }

  lemma SettledHolds(s: State, ev: Event, copy: nat)
    requires Sound(s) && copy in SettledBy(s, ev)
    ensures ev.name in Step(s, ev).clients && Holds(Step(s, ev), ev.name, copy) && copy < Step(s, ev).log.copies
  {
  }

  /** A reject that is published and flushed leaves exactly the new copy in place of the one rejected. */
  lemma RejectReplaces(s: State, name: string, copy: nat)
    requires Sound(s) && name in s.clients && copy in s.clients[name].inFlight
    ensures var t := Step(Step(Step(s, Reject(name, copy)), Publish(name, copy)), Flush(name, copy));
      && t.stored == s.stored - {copy} + {s.log.copies} && s.log.copies !in s.log.content
      && copy in s.log.content
      && t.log.content == s.log.content[s.log.copies := Content(s.log.content[copy].message, true)]
      && Newest(t.log, s.log.copies)
  {
    var a := Step(s, Reject(name, copy));
    assert copy in a.clients[name].publishing && a.log == s.log && a.stored == s.stored;
    assert copy in s.log.content && copy < s.log.copies;
    var b := Step(a, Publish(name, copy));
    assert b == Moved(a, name, copy);
    assert b.stored == s.stored + {s.log.copies} && copy in b.clients[name].acks;
  }

  /** From every reachable state, a new client can take and ack any stored message that decodes. */
  lemma StoredCanBeHandled(s: State, name: string, copy: nat)
    requires Sound(s) && name !in s.clients && copy in s.stored && copy in s.log.content
    requires s.log.content[copy].decodes
    ensures var t := Run(s, [Start(name), Push(name, copy), Take(name), Ack(name, copy), Flush(name, copy)]);
      && t.stored == s.stored - {copy} && t.log == s.log.(acked := s.log.acked + {copy})
      && t.clients == s.clients[name := Client([], {}, {}, {}, false)]
  {
    var a := Step(s, Start(name));
    var b := Step(a, Push(name, copy));
    assert b.clients[name] == Client([copy], {}, {}, {}, false) && [copy][1..] == [];
    var none: set<nat> := {};
    assert none + {copy} == {copy} && {copy} - {copy} == none;
    var c := Step(b, Take(name));
    assert c.clients[name] == Client([], {copy}, {}, {}, false);
    assert c.clients == s.clients[name := Client([], {copy}, {}, {}, false)];
    assert c == With(s, name, Client([], {copy}, {}, {}, false));
    var d := Step(c, Ack(name, copy));
    var e := Step(d, Flush(name, copy));
    assert e.clients == s.clients[name := Client([], {}, {}, {}, false)];
    RunFive(s, Start(name), Push(name, copy), Take(name), Ack(name, copy), Flush(name, copy));
  }

  /** Nothing stored is lost with a client: when it dies and starts anew, it can take and ack what is stored. */
  lemma ComesBackAfterCrash(s: State, name: string, copy: nat)
    requires Sound(s) && name in s.clients && copy in s.stored && copy in s.log.content
    requires s.log.content[copy].decodes
    ensures var dead := Step(s, Crash(name));
      var t := Run(dead, [Start(name), Push(name, copy), Take(name), Ack(name, copy), Flush(name, copy)]);
      && dead.stored == s.stored && dead.log == s.log
      && t.stored == s.stored - {copy} && t.log == s.log.(acked := s.log.acked + {copy})
  {
    StepKeeps(s, Crash(name));
    var dead := Step(s, Crash(name));
    assert name !in dead.clients;
    hide Step, Run, Sound;
    StoredCanBeHandled(dead, name, copy);
  }

  /** A failed publish leaves the message stored, and its copy is not published any more. */
  lemma FailedPublishesNothing(s: State, name: string, copy: nat)
    requires name in s.clients
    ensures var t := Step(s, Fail(name, copy));
      t.stored == s.stored && t.log == s.log && Step(t, Publish(name, copy)) == t
  {
  }

  lemma RunFive(s: State, a: Event, b: Event, c: Event, d: Event, e: Event)
    ensures Run(s, [a, b, c, d, e]) == Step(Step(Step(Step(Step(s, a), b), c), d), e)
  {
    hide Step;
    assert [a, b, c, d, e][1..] == [b, c, d, e] && [b, c, d, e][1..] == [c, d, e];
    assert [c, d, e][1..] == [d, e] && [d, e][1..] == [e] && [e][1..] == [];
    RunThree(Step(Step(s, a), b), c, d, e);
  }

  lemma RunThree(s: State, a: Event, b: Event, c: Event)
    ensures Run(s, [a, b, c]) == Step(Step(Step(s, a), b), c)
  {
    hide Step;
    assert [a, b, c][1..] == [b, c] && [b, c][1..] == [c] && [c][1..] == [];
    assert Run(Step(s, a), [b, c]) == Run(Step(Step(s, a), b), [c]);
    var t := Step(Step(s, a), b);
    assert Run(t, [c]) == Run(Step(t, c), []);
  }

  // ---- One client --------------------------------------------------------------------

  /** A delivery is settled once: afterwards neither an ack nor a reject of it does anything. */
  lemma SettlesOnce(s: State, name: string, copy: nat, ev: Event)
    requires name in s.clients && ev in {Ack(name, copy), Reject(name, copy)}
    ensures var t := Step(s, ev);
      Step(t, Ack(name, copy)) == t && Step(t, Reject(name, copy)) == t
  {
  }

  /** So at most one copy is published for it. */
  lemma PublishesOnce(s: State, name: string, copy: nat)
    requires name in s.clients
    ensures var t := Step(s, Publish(name, copy)); Step(t, Publish(name, copy)) == t
  {
    hide Published;
  }

  /** What is pushed to a client while a run lasts, and what it takes off its buffer. */
  function PushedTo(s: State, events: seq<Event>, name: string): seq<nat>
    decreases |events|
  {
    if events == [] then []
    else
      (if events[0].Push? && events[0].name == name && events[0].copy in s.stored then [events[0].copy] else [])
      + PushedTo(Step(s, events[0]), events[1..], name)
  }

  /** The copies a step takes: delivered, or discarded. */
  function TakenBy(s: State, ev: Event, name: string): seq<nat> {
    if name !in s.clients || ev != Take(name) then []
    else
      var c := s.clients[name];
      if c.buffer == [] || c.closing || c.buffer[0] !in s.log.content then []
      else
        var t := Step(s, ev);
        if name !in t.clients then []
        else
          var copy := c.buffer[0];
          if copy in t.clients[name].inFlight || copy in t.clients[name].acks then [copy] else []
  }

  function TakenIn(s: State, events: seq<Event>, name: string): seq<nat>
    decreases |events|
  {
    if events == [] then [] else TakenBy(s, events[0], name) + TakenIn(Step(s, events[0]), events[1..], name)
  }

  lemma StepTakes(s: State, ev: Event, name: string)
    requires name in s.clients && ev != Crash(name)
    ensures var t := Step(s, ev);
      && name in t.clients
      && s.clients[name].buffer
           + (if ev.Push? && ev.name == name && ev.copy in s.stored then [ev.copy] else [])
         == TakenBy(s, ev, name) + t.clients[name].buffer
  {
  }

  /** A client takes, each once and in order, what was pushed to it. */
  lemma {:induction false} TakesInOrder(s: State, events: seq<Event>, name: string)
    requires name in s.clients && Crash(name) !in events
    ensures var t := Run(s, events);
      && name in t.clients
      && s.clients[name].buffer + PushedTo(s, events, name) == TakenIn(s, events, name) + t.clients[name].buffer
    decreases |events|
  {
    if events == [] {
      assert s.clients[name].buffer + [] == [] + s.clients[name].buffer;
    } else {
      var t, ev := Step(s, events[0]), events[0];
      StepTakes(s, ev, name);
      TakesInOrder(t, events[1..], name);
      hide Step, TakenBy;
      var one := if ev.Push? && ev.name == name && ev.copy in s.stored then [ev.copy] else [];
      Regroup(s.clients[name].buffer, one, PushedTo(t, events[1..], name), TakenBy(s, ev, name),
              t.clients[name].buffer, TakenIn(t, events[1..], name), Run(t, events[1..]).clients[name].buffer);
    }
  }

  lemma Regroup(
    a: seq<nat>, one: seq<nat>, pushed: seq<nat>, first: seq<nat>, b: seq<nat>, taken: seq<nat>, c: seq<nat>)
    requires a + one == first + b && b + pushed == taken + c
    ensures a + (one + pushed) == (first + taken) + c
  {
    assert a + (one + pushed) == (a + one) + pushed;
    assert (first + b) + pushed == first + (b + pushed);
    assert first + (taken + c) == (first + taken) + c;
  }

  /** A closed client sends and takes nothing any more, and what it has in flight only shrinks. */
  lemma ClosedIsQuiet(s: State, name: string, events: seq<Event>)
    requires name in s.clients && Crash(name) !in events
    ensures var t := Run(Step(s, Close(name)), events);
      && name in t.clients && t.clients[name].inFlight <= s.clients[name].inFlight
      && Step(t, Take(name)) == t && forall decodes :: Step(t, Send(name, decodes)) == t
  {
    StaysClosed(Step(s, Close(name)), name, events);
    hide Run;
  }

  lemma {:induction false} StaysClosed(s: State, name: string, events: seq<Event>)
    requires name in s.clients && s.clients[name].closing && Crash(name) !in events
    ensures var t := Run(s, events);
      name in t.clients && t.clients[name].closing && t.clients[name].inFlight <= s.clients[name].inFlight
    decreases |events|
  {
    if events != [] {
      StepStaysClosed(s, name, events[0]);
      hide Step;
      StaysClosed(Step(s, events[0]), name, events[1..]);
    }
  }

  lemma StepStaysClosed(s: State, name: string, ev: Event)
    requires name in s.clients && s.clients[name].closing && ev != Crash(name)
    ensures var t := Step(s, ev);
      name in t.clients && t.clients[name].closing && t.clients[name].inFlight <= s.clients[name].inFlight
  {
  }
}
