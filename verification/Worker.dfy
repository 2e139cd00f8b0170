/** The consuming loop: pull, dispatch, then ack what resolved and reject what threw. */
module Worker {
  import opened Common
  import opened Envelopes
  import opened InMemory

  /** The state after a delivered entry is settled. */
  function AfterOne(m: Mailbox, k: nat, resolves: bool, polled: real, settled: real): Mailbox
    requires k < |m.queue|
  {
    var id, e := m.queue[k].id, Delivered(m, m.queue[k]);
    var taken := Taken(m, polled);
    if resolves then Acked(taken, id) else Rejected(taken, e, id, settled)
  }

  /** A taken entry is nowhere in the queue, and the registry without it is the one before. */
  lemma TakenIsOut(m: Mailbox, k: nat, now: real)
    requires Consistent(m) && FirstDue(m.queue, now) == Some(k)
    ensures var taken, id := Taken(m, now), m.queue[k].id;
      && Consistent(taken) && id in taken.inFlight && taken.inFlight - {id} == m.inFlight
      && taken.queue == m.queue[..k] + m.queue[k + 1..]
      && taken.closing == m.closing && taken.name == m.name && taken.nextId == m.nextId
      && forall x :: x in taken.queue ==> x.id != id
  {
    TakenFacts(m, now);
    var taken, id := Taken(m, now), m.queue[k].id;
    assert id !in m.inFlight;
    forall x | x in taken.queue ensures x.id != id {
      var i :| 0 <= i < |taken.queue| && taken.queue[i] == x;
      assert id in taken.inFlight;
    }
  }

  /** A settled delivery leaves the registry as it was; an ack takes its entry away, a reject puts a copy at the end. */
  lemma OneIsSettled(m: Mailbox, k: nat, resolves: bool, polled: real, settled: real)
    requires Consistent(m) && FirstDue(m.queue, polled) == Some(k)
    ensures var t := AfterOne(m, k, resolves, polled, settled);
      && Consistent(t) && t.inFlight == m.inFlight && t.closing == m.closing && t.name == m.name
      && t.queue == m.queue[..k] + m.queue[k + 1..]
         + (if resolves then [] else [Entry(Decimal(m.nextId), Redelivery(Delivered(m, m.queue[k])), settled)])
  {
    var id, e, taken := m.queue[k].id, Delivered(m, m.queue[k]), Taken(m, polled);
    TakenIsOut(m, k, polled);
    hide Delivered, Redelivery, Decimal, Consistent, Taken;
    WithoutAbsent(taken.queue, id);
    hide Without;
    ApplyKeepsConsistent(taken, if resolves then AckCall(id) else RejectCall(e, id), settled);
    assert taken.queue + [] == taken.queue;
  }

  /**
   * What a worker is given turn by turn: whether the caller's signal or the runtime limit has fired,
   * how the dispatch ends, whether memory has run out, and the times of the poll and the settle.
   */
  datatype Turns = Turns(
    aborted: nat -> bool, resolves: nat -> bool, outOfMemory: nat -> bool, polled: nat -> real, settled: nat -> real)

  /** Where a worker is: the receiver, the messages processed and rejected, and whether it has aborted itself. */
  datatype Progress = Progress(receiver: Mailbox, processed: nat, rejected: nat, done: bool)

  predicate Reached(max: Option<nat>, processed: nat, outOfMemory: bool) {
    (max.Some? && processed >= max.value) || outOfMemory
  }

  predicate Stops(p: Progress, t: Turns, i: nat) { p.done || t.aborted(i) || p.receiver.closing }

  /** One turn: nothing is due, or the first due message is pulled and settled. */
  function AfterTurn(p: Progress, max: Option<nat>, t: Turns, i: nat): Progress {
    match FirstDue(p.receiver.queue, t.polled(i))
    case None => p
    case Some(k) =>
      var processed := p.processed + 1;
      Progress(AfterOne(p.receiver, k, t.resolves(i), t.polled(i), t.settled(i)), processed,
               p.rejected + (if t.resolves(i) then 0 else 1), p.done || Reached(max, processed, t.outOfMemory(i)))
  }

  /** The loop from turn `i` on, for turns before `end`. */
  function Loop(p: Progress, max: Option<nat>, t: Turns, i: nat, end: nat): Progress
    decreases end - i
  {
    if i >= end || Stops(p, t, i) then p else Loop(AfterTurn(p, max, t, i), max, t, i + 1, end)
  }

  /** What the loop keeps, from a worker that has processed and rejected so many of `size` messages. */
  ghost predicate Keeps(m: Mailbox, size: nat, p: Progress, max: Option<nat>) {
    && Consistent(p.receiver) && p.receiver.inFlight == m.inFlight && p.receiver.closing == m.closing
    && p.rejected <= p.processed && |p.receiver.queue| + (p.processed - p.rejected) == size
    && (p.done ==> p.processed > 0)
    && (max.Some? ==> p.processed <= if max.value > 1 then max.value else 1)
    && (max.Some? && !p.done && p.processed > 0 ==> p.processed < max.value)
  }

  lemma TurnKeeps(m: Mailbox, size: nat, p: Progress, max: Option<nat>, t: Turns, i: nat)
    requires Keeps(m, size, p, max) && !Stops(p, t, i)
    ensures Keeps(m, size, AfterTurn(p, max, t, i), max)
    ensures AfterTurn(p, max, t, i).processed <= p.processed + 1
  {
    match FirstDue(p.receiver.queue, t.polled(i))
    case None =>
    case Some(k) =>
      OneIsSettled(p.receiver, k, t.resolves(i), t.polled(i), t.settled(i));
      hide Consistent, AfterOne, FirstDue;
  }

  lemma {:induction false} LoopKeeps(m: Mailbox, size: nat, p: Progress, max: Option<nat>, t: Turns, i: nat, end: nat)
    requires Keeps(m, size, p, max) && i <= end
    ensures Keeps(m, size, Loop(p, max, t, i, end), max)
    ensures Loop(p, max, t, i, end).processed <= p.processed + (end - i)
    decreases end - i
  {
    hide Keeps, Stops, AfterTurn;
    if i < end && !Stops(p, t, i) {
      TurnKeeps(m, size, p, max, t, i);
      LoopKeeps(m, size, AfterTurn(p, max, t, i), max, t, i + 1, end);
    }
  }

  lemma LoopFacts(m: Mailbox, max: Option<nat>, t: Turns, turns: nat)
    requires Consistent(m)
    ensures var u := Loop(Progress(m, 0, 0, false), max, t, 0, turns);
      && u.receiver.inFlight == m.inFlight && u.receiver.closing == m.closing
      && u.rejected <= u.processed <= turns && |u.receiver.queue| + (u.processed - u.rejected) == |m.queue|
      && (max.Some? ==> u.processed <= if max.value > 1 then max.value else 1)
  {
    LoopKeeps(m, |m.queue|, Progress(m, 0, 0, false), max, t, 0, turns);
    hide Loop, Consistent;
  }

  /** Every entry of the queue is due at every turn from `i` on, and each is handled. */
  ghost predicate Smooth(queue: seq<Entry>, t: Turns, i: nat, end: nat) {
    forall j :: i <= j < end ==>
      && !t.aborted(j) && !t.outOfMemory(j) && t.resolves(j)
      && forall x :: x in queue ==> x.availableAt <= t.polled(j)
  }

  lemma SmoothTurn(p: Progress, t: Turns, i: nat, end: nat)
    requires Consistent(p.receiver) && Smooth(p.receiver.queue, t, i, end) && i < end && p.receiver.queue != []
    ensures var next := AfterTurn(p, None, t, i);
      && Consistent(next.receiver) && next.receiver.queue == p.receiver.queue[1..]
      && next.receiver.inFlight == p.receiver.inFlight && next.receiver.closing == p.receiver.closing
      && next.processed == p.processed + 1 && next.done == p.done
  {
    assert p.receiver.queue[0] in p.receiver.queue;
    assert FirstDue(p.receiver.queue, t.polled(i)) == Some(0);
    OneIsSettled(p.receiver, 0, true, t.polled(i), t.settled(i));
    hide Consistent, AfterOne, FirstDue;
    var q := p.receiver.queue;
    assert q[..0] + q[1..] + [] == q[1..];
  }

  lemma SmoothRest(queue: seq<Entry>, t: Turns, i: nat, end: nat)
    requires Smooth(queue, t, i, end) && queue != []
    ensures Smooth(queue[1..], t, i + 1, end)
  {
    assert forall x :: x in queue[1..] ==> x in queue;
  }

  lemma SmoothRuns(p: Progress, t: Turns, i: nat, end: nat)
    requires Smooth(p.receiver.queue, t, i, end) && i < end && !p.receiver.closing && !p.done
    ensures !Stops(p, t, i)
    ensures p.receiver.queue == [] ==> AfterTurn(p, None, t, i) == p
    ensures p.receiver.queue == [] ==> Smooth(p.receiver.queue, t, i + 1, end)
  {
  }

  /** A worker without a limit that has turns enough handles all that is due, in order, and leaves the queue empty. */
  lemma {:induction false} HandlesAllThatIsDue(p: Progress, t: Turns, i: nat, end: nat)
    requires Consistent(p.receiver) && !p.receiver.closing && !p.done
    requires Smooth(p.receiver.queue, t, i, end) && i + |p.receiver.queue| <= end
    ensures var u := Loop(p, None, t, i, end);
      && u.receiver.queue == [] && u.receiver.inFlight == p.receiver.inFlight
      && u.processed == p.processed + |p.receiver.queue| && !u.done
    decreases end - i
  {
    hide *;
    if i < end {
      SmoothRuns(p, t, i, end);
      LoopNext(p, None, t, i, end);
      if p.receiver.queue != [] {
        SmoothTurn(p, t, i, end);
        SmoothRest(p.receiver.queue, t, i, end);
      }
      HandlesAllThatIsDue(AfterTurn(p, None, t, i), t, i + 1, end);
    } else {
      LoopOver(p, None, t, i, end);
    }
  }

  class Worker {
    const receiver: InMemoryTransport
    const maxMessages: Option<nat>

    constructor (receiver: InMemoryTransport, maxMessages: Option<nat>)
      ensures this.receiver == receiver && this.maxMessages == maxMessages
    {
      this.receiver, this.maxMessages := receiver, maxMessages;
    }

    /** Only the outcome of the dispatch decides between ack and reject. */
    method HandleOne(e: Envelope, resolves: bool, now: real) returns (ok: bool)
      requires receiver.Valid()
      modifies receiver
      ensures receiver.Valid() && ok == e.MessageId().Some?
      ensures receiver.View() ==
        if !ok then old(receiver.View())
        else if resolves then Acked(old(receiver.View()), e.MessageId().value)
        else Rejected(old(receiver.View()), e, e.MessageId().value, now)
    {
      if resolves {
        var r := receiver.Ack(e);
        ok := r.Ok?;
      } else {
        var r := receiver.Reject(e, now);
        ok := r.Ok?;
      }
    }

    /** One turn of `for await`: pull, and settle what was pulled. */
    method Turn(stop: bool, resolves: bool, polled: real, settled: real) returns (step: PollStep)
      requires receiver.Valid()
      modifies receiver
      ensures receiver.Valid()
      ensures var m := old(receiver.View());
        if stop || m.closing then step.Ended? && receiver.View() == m
        else match FirstDue(m.queue, polled)
          case None => step.Sleep? && receiver.View() == m
          case Some(k) => step.Yield? && receiver.View() == AfterOne(m, k, resolves, polled, settled)
    {
      ghost var m := receiver.View();
      step := receiver.Poll(stop, polled);
      if step.Sleep? {
        NothingTaken(m, polled);
      }
      if step.Yield? {
        ghost var k := FirstDue(m.queue, polled).value;
        DeliveredId(m, m.queue[k]);
        hide Delivered, Redelivery, Consistent, Taken, Acked, Rejected, FirstDue;
        var ok := HandleOne(step.envelope, resolves, settled);
      }
    }

    /** The loop of `run`, for `turns` turns at most, is `Loop`. */
    method Consume(t: Turns, turns: nat) returns (processed: nat, ghost rejected: nat, stopped: bool)
      requires receiver.Valid()
      modifies receiver
      ensures receiver.Valid()
      ensures var u := Loop(Progress(old(receiver.View()), 0, 0, false), maxMessages, t, 0, turns);
        receiver.View() == u.receiver && processed == u.processed && rejected == u.rejected
      ensures stopped ==>
        receiver.View().closing || (exists i :: 0 <= i < turns && t.aborted(i)) || processed > 0
    {
      hide *;
      ghost var start := Progress(receiver.View(), 0, 0, false);
      processed, rejected, stopped := 0, 0, false;
      var controllerAborted := false;
      var i := 0;
      while i < turns && !stopped
        invariant i <= turns && receiver.Valid()
        invariant controllerAborted ==> processed > 0
        invariant stopped ==>
          receiver.View().closing || (exists j :: 0 <= j < turns && t.aborted(j)) || processed > 0
        invariant var here := Progress(receiver.View(), processed, rejected, controllerAborted);
          Loop(start, maxMessages, t, 0, turns) == if stopped then here else Loop(here, maxMessages, t, i, turns)
      {
        ghost var p := Progress(receiver.View(), processed, rejected, controllerAborted);
        LoopNext(p, maxMessages, t, i, turns);
        TurnIs(p, maxMessages, t, i);
        var step := Turn(controllerAborted || t.aborted(i), t.resolves(i), t.polled(i), t.settled(i));
        if step.Ended? {
          stopped := true;
        }
        if step.Yield? {
          processed := processed + 1;
          if !t.resolves(i) { rejected := rejected + 1; }
          if Reached(maxMessages, processed, t.outOfMemory(i)) {
            controllerAborted := true;
          }
        }
        i := i + 1;
      }
      if !stopped {
        LoopOver(Progress(receiver.View(), processed, rejected, controllerAborted), maxMessages, t, turns, turns);
      }
    }

    /**
     * `run`: every message pulled is settled before the loop goes round, so nothing is left in flight,
     * and only resolved messages have left the queue.
     */
    method Run(t: Turns, turns: nat) returns (processed: nat, ghost rejected: nat, stopped: bool)
      requires receiver.Valid()
      modifies receiver
      ensures var u := Loop(Progress(old(receiver.View()), 0, 0, false), maxMessages, t, 0, turns);
        receiver.View() == u.receiver && processed == u.processed && rejected == u.rejected
      ensures receiver.Valid() && receiver.inFlight == old(receiver.inFlight)
      ensures receiver.closing == old(receiver.closing)
      ensures rejected <= processed && |receiver.queue| + (processed - rejected) == |old(receiver.queue)|
      ensures processed <= turns
      ensures maxMessages.Some? ==> processed <= (if maxMessages.value > 1 then maxMessages.value else 1)
      ensures stopped ==> receiver.closing || (exists i :: 0 <= i < turns && t.aborted(i)) || processed > 0
    {
      LoopFacts(receiver.View(), maxMessages, t, turns);
      hide Loop, Consistent, InMemoryTransport.Valid;
      processed, rejected, stopped := Consume(t, turns);
    }
  }

  lemma LoopOver(p: Progress, max: Option<nat>, t: Turns, i: nat, end: nat)
    requires i >= end
    ensures Loop(p, max, t, i, end) == p
  {
  }

  lemma NothingTaken(m: Mailbox, now: real)
    requires FirstDue(m.queue, now).None?
    ensures Taken(m, now) == m
  {
  }

  lemma TurnIs(p: Progress, max: Option<nat>, t: Turns, i: nat)
    ensures var due := FirstDue(p.receiver.queue, t.polled(i));
      AfterTurn(p, max, t, i) ==
        if due.None? then p
        else
          Progress(AfterOne(p.receiver, due.value, t.resolves(i), t.polled(i), t.settled(i)), p.processed + 1,
                   p.rejected + (if t.resolves(i) then 0 else 1),
                   p.done || Reached(max, p.processed + 1, t.outOfMemory(i)))
  {
    hide AfterOne, FirstDue;
  }

  lemma LoopNext(p: Progress, max: Option<nat>, t: Turns, i: nat, end: nat)
    requires i < end
    ensures Stops(p, t, i) <==> p.done || t.aborted(i) || p.receiver.closing
    ensures Loop(p, max, t, i, end) == if Stops(p, t, i) then p else Loop(AfterTurn(p, max, t, i), max, t, i + 1, end)
  {
    hide AfterTurn;
  }
}
