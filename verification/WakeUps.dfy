/**
 * The condition variable of the Kafka and Pub/Sub transports: pushed messages wait in a buffer,
 * and consumers that find it empty park until a push, a close or an error wakes them.
 */
module WakeUps {
  import opened Common

  /**
   * `parked` are the wakers in the order they were added; `woken` the consumers whose waker has
   * run but who have not resumed; `aborted` those whose signal has fired. `failed` is the
   * Pub/Sub stream error.
   */
  datatype State<+M> = State(
    buffer: seq<M>, parked: seq<nat>, woken: set<nat>, aborted: set<nat>, closing: bool, failed: bool)

  datatype Event<+M> =
    | Arrive(message: M)
    | Turn(consumer: nat)
    | Abort(consumer: nat)
    | Close
    | StreamError

  /** What a consumer's turn came to. */
  datatype Outcome<+M> = Stopped | Threw | Parked | Took(message: M)

  function Members(parked: seq<nat>): set<nat> { set i | 0 <= i < |parked| :: parked[i] }

  /** `wakeOne`: the longest-parked consumer. */
  function WokenOne<M>(s: State<M>): State<M> {
    if s.parked == [] then s else s.(parked := s.parked[1..], woken := s.woken + {s.parked[0]})
  }

  function WokenAll<M>(s: State<M>): State<M> { s.(parked := [], woken := s.woken + Members(s.parked)) }

  function Arrived<M>(s: State<M>, m: M): State<M> { WokenOne(s.(buffer := s.buffer + [m])) }

  function Without(parked: seq<nat>, c: nat): seq<nat> {
    if parked == [] then [] else (if parked[0] == c then [] else [parked[0]]) + Without(parked[1..], c)
  }

  /** The loop head of `get`, up to where it stops, throws, parks or has a message. */
  function OutcomeOf<M>(s: State<M>, c: nat): Outcome<M> {
    if c in s.aborted || s.closing then Stopped
    else if s.failed then Threw
    else if s.buffer == [] then Parked
    else Took(s.buffer[0])
  }

  function Turned<M>(s: State<M>, c: nat): State<M> {
    if c in s.parked then s
    else
      var t := s.(woken := s.woken - {c});
      match OutcomeOf(s, c)
      case Parked => t.(parked := s.parked + [c])
      case Took(_) => t.(buffer := s.buffer[1..])
      case _ => t
  }

  /** An abort runs the waker of a parked consumer. */
  function Aborted<M>(s: State<M>, c: nat): State<M> {
    s.(aborted := s.aborted + {c}, parked := Without(s.parked, c),
       woken := if c in s.parked then s.woken + {c} else s.woken)
  }

  function Step<M>(s: State<M>, ev: Event<M>): State<M> {
    match ev
    case Arrive(m) => Arrived(s, m)
    case Turn(c) => Turned(s, c)
    case Abort(c) => Aborted(s, c)
    case Close => WokenAll(s.(closing := true))
    case StreamError => WokenAll(s.(failed := true))
  }

  function Run<M>(s: State<M>, events: seq<Event<M>>): State<M>
    decreases |events|
  {
    if events == [] then s else Run(Step(s, events[0]), events[1..])
  }

  // ---- The invariant -----------------------------------------------------------------

  /** The consumers that were woken and will look at the buffer when they resume. */
  function Live<M>(s: State<M>): set<nat> { s.woken - s.aborted }

  ghost predicate Consistent<M>(s: State<M>) {
    && (forall i, j :: 0 <= i < j < |s.parked| ==> s.parked[i] != s.parked[j])
    && (forall i :: 0 <= i < |s.parked| ==> s.parked[i] !in s.woken && s.parked[i] !in s.aborted)
    && (s.closing || s.failed ==> s.parked == [])
  }

  /** While someone is parked, the buffered messages do not outnumber the live woken consumers. */
  ghost predicate Covered<M>(s: State<M>) { s.parked != [] ==> |s.buffer| <= |Live(s)| }

  /** No woken consumer is aborted before it resumes. */
  predicate Undisturbed<M>(s: State<M>, ev: Event<M>) { ev.Abort? ==> ev.consumer !in Live(s) }

  predicate UndisturbedRun<M>(s: State<M>, events: seq<Event<M>>)
    decreases |events|
  {
    events != [] ==> Undisturbed(s, events[0]) && UndisturbedRun(Step(s, events[0]), events[1..])
  }

  lemma {:induction false} WithoutFacts(parked: seq<nat>, c: nat)
    ensures forall x :: x in Without(parked, c) <==> x in parked && x != c
  {
    if parked != [] {
      WithoutFacts(parked[1..], c);
      assert forall x :: x in parked <==> x == parked[0] || x in parked[1..];
    }
  }

  lemma {:induction false} WithoutIsDistinct(parked: seq<nat>, c: nat)
    requires forall i, j :: 0 <= i < j < |parked| ==> parked[i] != parked[j]
    ensures forall i, j :: 0 <= i < j < |Without(parked, c)| ==> Without(parked, c)[i] != Without(parked, c)[j]
  {
    if parked != [] {
      WithoutIsDistinct(parked[1..], c);
      WithoutFacts(parked[1..], c);
      var rest := Without(parked[1..], c);
      assert forall j :: 0 <= j < |rest| ==> rest[j] in rest;
    }
  }

  lemma StepKeepsConsistent<M>(s: State<M>, ev: Event<M>)
    requires Consistent(s)
    ensures Consistent(Step(s, ev))
  {
    if ev.Abort? {
      WithoutFacts(s.parked, ev.consumer);
      WithoutIsDistinct(s.parked, ev.consumer);
      var rest := Without(s.parked, ev.consumer);
      forall i | 0 <= i < |rest| ensures rest[i] in s.parked && rest[i] != ev.consumer {
        assert rest[i] in rest;
      }
      hide Without;
    }
  }

  lemma ArrivedCovers<M>(s: State<M>, m: M)
    requires Consistent(s) && Covered(s)
    ensures Covered(Arrived(s, m))
  {
    if s.parked != [] {
      assert Live(Arrived(s, m)) == Live(s) + {s.parked[0]};
    }
  }

  lemma TurnedCovers<M>(s: State<M>, c: nat)
    requires Consistent(s) && Covered(s)
    ensures Covered(Turned(s, c))
  {
    if c !in s.parked {
      var t := Turned(s, c);
      assert Live(t) == Live(s) - {c};
      if c in Live(s) { assert |Live(t)| == |Live(s)| - 1; }
    }
  }

  lemma AbortedLive<M>(s: State<M>, c: nat)
    ensures Live(Aborted(s, c)) == Live(s) - {c}
  {
  }

  lemma StepKeepsCovered<M>(s: State<M>, ev: Event<M>)
    requires Consistent(s) && Covered(s) && Undisturbed(s, ev)
    ensures Covered(Step(s, ev))
  {
    match ev
    case Arrive(m) => ArrivedCovers(s, m);
    case Turn(c) => TurnedCovers(s, c);
    case Abort(c) =>
      WithoutFacts(s.parked, c);
      AbortedLive(s, c);
      assert Live(s) - {c} == Live(s);
    case Close =>
    case StreamError =>
  }

  ghost predicate Initial<M>(s: State<M>) { s == State([], [], {}, {}, false, false) }

  lemma {:induction false} RunKeeps<M>(s: State<M>, events: seq<Event<M>>)
    requires Consistent(s) && Covered(s) && UndisturbedRun(s, events)
    ensures Consistent(Run(s, events)) && Covered(Run(s, events))
    decreases |events|
  {
    if events != [] {
      StepKeepsConsistent(s, events[0]);
      StepKeepsCovered(s, events[0]);
      RunKeeps(Step(s, events[0]), events[1..]);
    }
  }

  /**
   * No lost wake-up: after any run of pushes, turns, closes and errors in which no woken consumer
   * is aborted before it resumes, a message that waits while someone is parked has a live woken
   * consumer whose next turn takes the head of the buffer.
   */
  lemma NoLostWakeUp<M>(s: State<M>, events: seq<Event<M>>)
    requires Initial(s) && UndisturbedRun(s, events)
    ensures var t := Run(s, events);
      && (t.parked != [] ==> |t.buffer| <= |Live(t)|)
      && (t.parked != [] && t.buffer != [] ==>
            exists c :: c in Live(t) && c !in t.parked && OutcomeOf(t, c) == Took(t.buffer[0]))
  {
    RunKeeps(s, events);
    var t := Run(s, events);
    if t.parked != [] && t.buffer != [] {
      assert Live(t) != {};
      var c :| c in Live(t);
      assert c !in t.parked && OutcomeOf(t, c) == Took(t.buffer[0]);
    }
  }

  /**
   * The excluded abort breaks the invariant exactly when every live woken consumer has its message
   * and someone is parked.
   */
  lemma AbortLosesIff<M>(s: State<M>, c: nat)
    requires Consistent(s) && Covered(s) && c in Live(s)
    ensures Covered(Aborted(s, c)) <==> s.parked == [] || |s.buffer| < |Live(s)|
  {
    WithoutFacts(s.parked, c);
    AbortedLive(s, c);
    assert |Live(s) - {c}| == |Live(s)| - 1;
    assert c !in s.parked;
    assert s.parked != [] ==> Without(s.parked, c) != [] by {
      if s.parked != [] { assert s.parked[0] in Without(s.parked, c); }
    }
  }

  /**
   * Two consumers park, one message wakes the first, who is aborted: the message waits beside a
   * parked consumer nobody wakes.
   */
  lemma AbortStrandsMessage<M>(s: State<M>, m: M)
    requires Initial(s)
    ensures var t := Step(Step(Step(Step(Step(s, Turn(0)), Turn(1)), Arrive(m)), Abort(0)), Turn(0));
      t.parked == [1] && t.buffer == [m] && t.woken == {}
  {
    var parked := Step(Step(s, Turn(0)), Turn(1));
    assert parked.parked == [0, 1] && parked.buffer == [];
    var arrived := Step(parked, Arrive(m));
    assert arrived.parked == [1] && arrived.woken == {0} && arrived.buffer == [m];
    var aborted := Step(arrived, Abort(0));
    WithoutFacts([1], 0);
    assert Without([1], 0) == [1] + Without([], 0);
    assert aborted.parked == [1] && aborted.aborted == {0};
  }

  // ---- What becomes of the messages --------------------------------------------------

  function Arrivals<M>(events: seq<Event<M>>): seq<M> {
    if events == [] then []
    else (if events[0].Arrive? then [events[0].message] else []) + Arrivals(events[1..])
  }

  /** The message a step hands to a consumer. */
  function Handed<M>(s: State<M>, ev: Event<M>): seq<M> {
    if ev.Turn? && ev.consumer !in s.parked && OutcomeOf(s, ev.consumer).Took?
    then [OutcomeOf(s, ev.consumer).message] else []
  }

  /** The messages handed out in a run, in order. */
  function Takes<M>(s: State<M>, events: seq<Event<M>>): seq<M>
    decreases |events|
  {
    if events == [] then [] else Handed(s, events[0]) + Takes(Step(s, events[0]), events[1..])
  }

  lemma StepConserves<M>(s: State<M>, ev: Event<M>)
    ensures s.buffer + (if ev.Arrive? then [ev.message] else []) == Handed(s, ev) + Step(s, ev).buffer
  {
  }

  /**
   * First in, first out, and nothing lost or doubled: in any run, the messages handed out, in the
   * order they are, and then the buffer are what was in the buffer and then what arrived.
   */
  lemma {:induction false} FirstInFirstOut<M>(s: State<M>, events: seq<Event<M>>)
    ensures s.buffer + Arrivals(events) == Takes(s, events) + Run(s, events).buffer
    decreases |events|
  {
    if events == [] {
      assert s.buffer + [] == [] + s.buffer;
    } else {
      var t, rest := Step(s, events[0]), events[1..];
      StepConserves(s, events[0]);
      FirstInFirstOut(t, rest);
      hide *;
      TakesNext(s, events);
      Regroup(s.buffer, if events[0].Arrive? then [events[0].message] else [], Arrivals(rest), Handed(s, events[0]),
              t.buffer, Takes(t, rest), Run(t, rest).buffer);
    }
  }

  lemma TakesNext<M>(s: State<M>, events: seq<Event<M>>)
    requires events != []
    ensures var t, rest := Step(s, events[0]), events[1..];
      && Arrivals(events) == (if events[0].Arrive? then [events[0].message] else []) + Arrivals(rest)
      && Takes(s, events) == Handed(s, events[0]) + Takes(t, rest) && Run(s, events) == Run(t, rest)
  {
    hide Step, Handed;
  }

  lemma Regroup<M>(a: seq<M>, one: seq<M>, arrivals: seq<M>, handed: seq<M>, b: seq<M>, takes: seq<M>, c: seq<M>)
    requires a + one == handed + b && b + arrivals == takes + c
    ensures a + (one + arrivals) == (handed + takes) + c
  {
    assert a + (one + arrivals) == (a + one) + arrivals;
    assert (handed + b) + arrivals == handed + (b + arrivals);
    assert handed + (takes + c) == (handed + takes) + c;
  }

  /** Once closed, or past a stream error, no consumer is handed anything, whatever happens. */
  lemma NothingTakenAfterClose<M>(s: State<M>, ev: Event<M>, events: seq<Event<M>>)
    requires ev.Close? || ev.StreamError?
    ensures var t := Step(s, ev);
      Takes(t, events) == [] && Run(t, events).buffer == s.buffer + Arrivals(events)
  {
    var t := Step(s, ev);
    FirstInFirstOut(t, events);
    NeverTakes(t, events);
    hide Arrivals, Takes, Run;
    assert [] + Run(t, events).buffer == Run(t, events).buffer;
  }

  lemma {:induction false} NeverTakes<M>(s: State<M>, events: seq<Event<M>>)
    requires s.closing || s.failed
    ensures Takes(s, events) == []
    decreases |events|
  {
    if events != [] {
      assert Handed(s, events[0]) == [];
      NeverTakes(Step(s, events[0]), events[1..]);
    }
  }

  // ---- The bridge object -------------------------------------------------------------

  /**
   * Pub/Sub's turn: a message that does not decode is discarded and the loop goes round at once,
   * so one turn may take several messages off the buffer.
   */
  function LongTurn<M>(s: State<M>, c: nat, decodes: M -> bool): (State<M>, Outcome<M>)
    decreases |s.buffer|
  {
    var outcome := OutcomeOf(s, c);
    if c !in s.parked && outcome.Took? && !decodes(outcome.message) then LongTurn(Turned(s, c), c, decodes)
    else (Turned(s, c), outcome)
  }

  function Repeat<M>(c: nat, n: nat): seq<Event<M>> { if n == 0 then [] else [Turn(c)] + Repeat(c, n - 1) }

  /** A long turn is a run of plain turns: what holds of every run holds of Pub/Sub too. */
  lemma {:induction false} LongTurnIsTurns<M>(s: State<M>, c: nat, decodes: M -> bool) returns (n: nat)
    ensures LongTurn(s, c, decodes).0 == Run(s, Repeat(c, n))
    decreases |s.buffer|
  {
    var outcome := OutcomeOf(s, c);
    if c !in s.parked && outcome.Took? && !decodes(outcome.message) {
      var k := LongTurnIsTurns(Turned(s, c), c, decodes);
      n := k + 1;
      assert Repeat<M>(c, n)[1..] == Repeat<M>(c, k);
    } else {
      n := 1;
      assert Repeat<M>(c, 1) == [Turn(c)] && [Turn(c)][1..] == Repeat<M>(c, 0);
      assert Run(Turned(s, c), []) == Turned(s, c);
    }
  }

  lemma HeadIsRemoved(parked: seq<nat>)
    requires parked != [] && forall i, j :: 0 <= i < j < |parked| ==> parked[i] != parked[j]
    ensures Without(parked, parked[0]) == parked[1..]
  {
    AbsentStays(parked[1..], parked[0]);
  }

  lemma {:induction false} AbsentStays(parked: seq<nat>, c: nat)
    requires c !in parked
    ensures Without(parked, c) == parked
  {
    if parked != [] { AbsentStays(parked[1..], c); }
  }

  class Bridge<M> {
    var buffer: seq<M>
    var wakers: seq<nat>
    var closing: bool
    var failed: bool
    var aborted: set<nat>
    ghost var woken: set<nat>

    ghost function View(): State<M>
      reads this
    {
      State(buffer, wakers, woken, aborted, closing, failed)
    }

    ghost predicate Valid()
      reads this
    {
      Consistent(View())
    }

    ghost predicate DistinctWakers()
      reads this
    {
      forall i, j :: 0 <= i < j < |wakers| ==> wakers[i] != wakers[j]
    }

    constructor ()
      ensures Valid() && Initial(View())
    {
      buffer, wakers, closing, failed, aborted, woken := [], [], false, false, {}, {};
    }

    /** A waker removes itself and resolves its consumer's wait. */
    method Wake(c: nat)
      modifies this
      ensures View() == old(View()).(parked := Without(old(wakers), c), woken := old(woken) + {c})
    {
      wakers := Without(wakers, c);
      woken := woken + {c};
    }

    method WakeOne()
      requires DistinctWakers()
      modifies this
      ensures View() == WokenOne(old(View()))
    {
      if wakers != [] {
        HeadIsRemoved(wakers);
        Wake(wakers[0]);
      }
    }

    /** Over a snapshot, since each waker takes itself out of the set. */
    method WakeAll()
      requires DistinctWakers()
      modifies this
      ensures View() == WokenAll(old(View()))
    {
      var snapshot := wakers;
      assert snapshot[0..] == snapshot && Members(snapshot[..0]) == {};
      for i := 0 to |snapshot|
        invariant View() == old(View()).(parked := snapshot[i..], woken := old(woken) + Members(snapshot[..i]))
      {
        HeadIsRemoved(snapshot[i..]);
        MembersNext(snapshot, i);
        Wake(snapshot[i]);
      }
      assert snapshot[..|snapshot|] == snapshot;
    }

    /** `onMessage`, and the subscription's message handler. */
    method OnMessage(m: M)
      requires Valid()
      modifies this
      ensures Valid() && View() == Step(old(View()), Arrive(m))
    {
      StepKeepsConsistent(View(), Arrive(m));
      buffer := buffer + [m];
      WakeOne();
    }

    /** The subscription's error handler. */
    method OnError()
      requires Valid()
      modifies this
      ensures Valid() && View() == Step(old(View()), StreamError)
    {
      StepKeepsConsistent<M>(View(), StreamError);
      failed := true;
      WakeAll();
    }

    method Close()
      requires Valid()
      modifies this
      ensures Valid() && View() == Step(old(View()), Event.Close)
    {
      StepKeepsConsistent<M>(View(), Event.Close);
      closing := true;
      WakeAll();
    }

    method OnAbort(c: nat)
      requires Valid()
      modifies this
      ensures Valid() && View() == Step(old(View()), Abort(c))
    {
      StepKeepsConsistent<M>(View(), Abort(c));
      aborted := aborted + {c};
      if c in wakers {
        Wake(c);
      } else {
        AbsentStays(wakers, c);
      }
    }

    /** One pass of the loop in `get`, up to its next suspension. */
    method Turn(c: nat) returns (outcome: Outcome<M>)
      requires Valid() && c !in wakers
      modifies this
      ensures Valid() && View() == Step(old(View()), Event.Turn(c))
      ensures outcome == OutcomeOf(old(View()), c)
    {
      StepKeepsConsistent<M>(View(), Event.Turn(c));
      woken := woken - {c};
      if c in aborted || closing {
        return Stopped;
      }
      if failed {
        return Threw;
      }
      if buffer == [] {
        wakers := wakers + [c];
        return Parked;
      }
      outcome := Took(buffer[0]);
      buffer := buffer[1..];
    }

    /** Pub/Sub's loop in `get`, which skips what does not decode without suspending. */
    method TurnPastPoison(c: nat, decodes: M -> bool) returns (outcome: Outcome<M>)
      requires Valid() && c !in wakers
      modifies this
      ensures Valid() && (View(), outcome) == LongTurn(old(View()), c, decodes)
    {
      while true
        invariant Valid() && c !in wakers
        invariant LongTurn(View(), c, decodes) == LongTurn(old(View()), c, decodes)
        decreases |buffer|
      {
        ghost var before := View();
        outcome := Turn(c);
        if !outcome.Took? || decodes(outcome.message) {
          assert LongTurn(before, c, decodes) == (Turned(before, c), outcome);
          return;
        }
      }
    }
  }

  lemma MembersNext(parked: seq<nat>, i: nat)
    requires i < |parked|
    ensures Members(parked[..i + 1]) == Members(parked[..i]) + {parked[i]}
  {
    var more := parked[..i + 1];
    assert forall k :: 0 <= k < i ==> more[k] == parked[..i][k];
    forall x | x in Members(more) ensures x in Members(parked[..i]) + {parked[i]} {
      var k :| 0 <= k < |more| && more[k] == x;
      if k < i { assert parked[..i][k] == x; }
    }
    forall x | x in Members(parked[..i]) ensures x in Members(more) {
      var k :| 0 <= k < i && parked[..i][k] == x;
      assert more[k] == x;
    }
    assert more[i] == parked[i];
  }
}
