/** The terminal middleware: run every handler that has not run yet, stop at the first failure. */
module HandlerLoop {
  import opened Common
  import opened Envelopes
  import opened InMemory
  import opened Pipeline

  /** What the handler at each position does when called: a result, or (None) a throw. */
  type Behaviour = nat -> Option<Json>

  /** `failed` is the position of the handler that threw, `envelope` what its error carries. */
  datatype HandlerError = HandlerNotFound | HandlerFailed(envelope: Envelope, failed: nat)

  predicate IsFor(s: Stamp, name: string) { s.cls == HandledStamp && TextOf(s, "handlerName") == name }

  predicate AlreadyHandled(e: Envelope, name: string) { exists s :: s in e.stamps && IsFor(s, name) }

  /** The state of one pass: the envelope so far, which handlers returned, and the one that threw. */
  datatype Pass = Pass(envelope: Envelope, returned: seq<nat>, failed: Option<nat>)

  /** A pass over the handlers from position `i` on. */
  function PassFrom(names: seq<string>, e: Envelope, calls: Behaviour, i: nat): Pass
    requires i <= |names|
    decreases |names| - i
  {
    if i == |names| then Pass(e, [], None)
    else if AlreadyHandled(e, names[i]) then PassFrom(names, e, calls, i + 1)
    else match calls(i)
      case None => Pass(e, [], Some(i))
      case Some(result) =>
        var rest := PassFrom(names, e.With([NewHandled(result, names[i])]), calls, i + 1);
        rest.(returned := [i] + rest.returned)
  }

  /** `HandleMessageMiddleware.handle`; `ran` lists the handlers that returned, in order. */
  method Handle(names: seq<string>, allowNoHandlers: bool, e: Envelope, calls: Behaviour)
    returns (r: Result<Envelope, HandlerError>, ran: seq<nat>)
    ensures r == Err(HandlerNotFound) <==> names == [] && !allowNoHandlers
    ensures r != Err(HandlerNotFound) ==> var p := PassFrom(names, e, calls, 0);
      ran == p.returned
      && r == match p.failed case None => Ok(p.envelope) case Some(i) => Err(HandlerFailed(p.envelope, i))
  {
    ran := [];
    if |names| == 0 && !allowNoHandlers {
      return Err(HandlerNotFound), ran;
    }
    var current := e;
    for i := 0 to |names|
      invariant var all, rest := PassFrom(names, e, calls, 0), PassFrom(names, current, calls, i);
        all == rest.(returned := ran + rest.returned)
    {
      if AlreadyHandledNow(current, names[i]) {
        continue;
      }
      match calls(i)
      case None => return Err(HandlerFailed(current, i)), ran;
      case Some(result) =>
        ghost var rest := PassFrom(names, current.With([NewHandled(result, names[i])]), calls, i + 1);
        assert ran + ([i] + rest.returned) == ran + [i] + rest.returned;
        current := current.With([NewHandled(result, names[i])]);
        ran := ran + [i];
    }
    r := Ok(current);
  }

  /** `all(HandledStamp).some(...)` */
  predicate AlreadyHandledNow(e: Envelope, name: string)
    ensures AlreadyHandledNow(e, name) <==> AlreadyHandled(e, name)
  {
    exists i :: 0 <= i < |e.stamps| && IsFor(e.stamps[i], name)
  }

  // ---- What is left to run -----------------------------------------------------------

  /** The positions from `i` on whose handler has not run for this envelope. */
  function Todo(names: seq<string>, e: Envelope, i: nat): seq<nat>
    requires i <= |names|
    decreases |names| - i
  {
    if i == |names| then []
    else (if AlreadyHandled(e, names[i]) then [] else [i]) + Todo(names, e, i + 1)
  }

  predicate Distinct(names: seq<string>) { forall i, j :: 0 <= i < j < |names| ==> names[i] != names[j] }

  lemma HandledNow(e: Envelope, result: Json, name: string, other: string)
    ensures AlreadyHandled(e.With([NewHandled(result, name)]), other) <==> AlreadyHandled(e, other) || other == name
  {
    var s := NewHandled(result, name);
    var t := e.With([s]);
    assert t.stamps[|t.stamps| - 1] == s && IsFor(s, name);
    if AlreadyHandled(e, other) {
      var x :| x in e.stamps && IsFor(x, other);
      assert x in t.stamps;
    }
  }

  /** A handler that has run no longer counts as to be run, and only it. */
  lemma {:induction false} TodoAfter(names: seq<string>, e: Envelope, result: Json, k: nat, i: nat)
    requires k < i <= |names| && Distinct(names)
    ensures Todo(names, e.With([NewHandled(result, names[k])]), i) == Todo(names, e, i)
    decreases |names| - i
  {
    if i < |names| {
      HandledNow(e, result, names[k], names[i]);
      TodoAfter(names, e, result, k, i + 1);
    }
  }

  lemma {:induction false} HandledStays(names: seq<string>, e: Envelope, calls: Behaviour, i: nat, name: string)
    requires i <= |names| && AlreadyHandled(e, name)
    ensures AlreadyHandled(PassFrom(names, e, calls, i).envelope, name)
    decreases |names| - i
  {
    if i < |names| {
      if AlreadyHandled(e, names[i]) {
        HandledStays(names, e, calls, i + 1, name);
      } else if calls(i).Some? {
        HandledNow(e, calls(i).value, names[i], name);
        HandledStays(names, e.With([NewHandled(calls(i).value, names[i])]), calls, i + 1, name);
      }
    }
  }

  /** A pass takes handlers off the front of what is to be run, and stops only at one that throws. */
  lemma {:induction false} PassTakesFromTodo(names: seq<string>, e: Envelope, calls: Behaviour, i: nat)
    requires i <= |names| && Distinct(names)
    ensures var p := PassFrom(names, e, calls, i);
      && Todo(names, e, i) == p.returned + Todo(names, p.envelope, i)
      && (p.failed.None? <==> Todo(names, p.envelope, i) == [])
      && (p.failed.Some? ==>
            && Todo(names, p.envelope, i)[0] == p.failed.value
            && p.failed.value < |names| && calls(p.failed.value).None?)
    decreases |names| - i
  {
    hide AlreadyHandled;
    if i < |names| {
      if AlreadyHandled(e, names[i]) {
        HandledStays(names, e, calls, i + 1, names[i]);
        PassTakesFromTodo(names, e, calls, i + 1);
      } else if calls(i).Some? {
        var next := e.With([NewHandled(calls(i).value, names[i])]);
        HandledNow(e, calls(i).value, names[i], names[i]);
        HandledStays(names, next, calls, i + 1, names[i]);
        TodoAfter(names, e, calls(i).value, i, i + 1);
        PassTakesFromTodo(names, next, calls, i + 1);
      }
    }
  }

  // ---- Running again until it works --------------------------------------------------

  /** Passes over each failed pass's own envelope, until one succeeds or `n` have run. */
  function Resumed(names: seq<string>, e: Envelope, attempt: nat -> Behaviour, n: nat): Pass
    decreases n
  {
    if n == 0 then Pass(e, [], None)
    else
      var before := Resumed(names, e, attempt, n - 1);
      if n > 1 && before.failed.None? then before
      else
        var p := PassFrom(names, before.envelope, attempt(n - 1), 0);
        p.(returned := before.returned + p.returned)
  }

  lemma {:induction false} ResumedTakesFromTodo(names: seq<string>, e: Envelope, attempt: nat -> Behaviour, n: nat)
    requires Distinct(names)
    ensures var p := Resumed(names, e, attempt, n);
      && Todo(names, e, 0) == p.returned + Todo(names, p.envelope, 0)
      && (n > 0 ==> (p.failed.None? <==> Todo(names, p.envelope, 0) == []))
    decreases n
  {
    hide Todo, PassFrom;
    if n > 0 {
      ResumedTakesFromTodo(names, e, attempt, n - 1);
      var before := Resumed(names, e, attempt, n - 1);
      if n == 1 || before.failed.Some? {
        PassTakesFromTodo(names, before.envelope, attempt(n - 1), 0);
        var p := PassFrom(names, before.envelope, attempt(n - 1), 0);
        assert before.returned + (p.returned + Todo(names, p.envelope, 0))
            == before.returned + p.returned + Todo(names, p.envelope, 0);
      }
    }
  }

  /**
   * With distinct names and any failure pattern, rerunning on each error's envelope until success
   * lets every handler not yet handled return exactly once, in order; one more pass runs none.
   */
  lemma ResumptionRunsEachOnce(names: seq<string>, e: Envelope, attempt: nat -> Behaviour, n: nat, again: Behaviour)
    requires Distinct(names) && n > 0 && Resumed(names, e, attempt, n).failed.None?
    ensures var p := Resumed(names, e, attempt, n);
      && p.returned == Todo(names, e, 0)
      && PassFrom(names, p.envelope, again, 0) == Pass(p.envelope, [], None)
  {
    ResumedTakesFromTodo(names, e, attempt, n);
    var p := Resumed(names, e, attempt, n);
    assert p.returned + [] == p.returned;
    NothingToDo(names, p.envelope, again, 0);
  }

  lemma {:induction false} NothingToDo(names: seq<string>, e: Envelope, calls: Behaviour, i: nat)
    requires i <= |names| && Todo(names, e, i) == []
    ensures PassFrom(names, e, calls, i) == Pass(e, [], None)
    decreases |names| - i
  {
    if i < |names| { NothingToDo(names, e, calls, i + 1); }
  }

  lemma {:induction false} TodoIs(names: seq<string>, e: Envelope, i: nat)
    requires i <= |names|
    ensures forall k :: k in Todo(names, e, i) <==> i <= k < |names| && !AlreadyHandled(e, names[k])
    decreases |names| - i
  {
    if i < |names| { TodoIs(names, e, i + 1); }
  }

  // ---- Where resumption ends ---------------------------------------------------------

  /** A pass in which no handler throws runs all that is to be run. */
  lemma CleanPass(names: seq<string>, e: Envelope, calls: Behaviour)
    requires Distinct(names)
    requires forall k :: 0 <= k < |names| ==> calls(k).Some?
    ensures PassFrom(names, e, calls, 0).failed.None?
    ensures PassFrom(names, e, calls, 0).returned == Todo(names, e, 0)
  {
    hide PassFrom, Todo, AlreadyHandled;
    PassTakesFromTodo(names, e, calls, 0);
    var p := PassFrom(names, e, calls, 0);
    assert p.returned + [] == p.returned;
  }

  /** On an envelope no handler has seen, a pass in which none throws runs them all exactly when their names differ. */
  lemma FirstPassRunsAllIff(names: seq<string>, e: Envelope, calls: Behaviour)
    requires forall k :: 0 <= k < |names| ==> calls(k).Some? && !AlreadyHandled(e, names[k])
    ensures (forall k :: 0 <= k < |names| ==> k in PassFrom(names, e, calls, 0).returned) <==> Distinct(names)
  {
    hide PassFrom;
    if Distinct(names) {
      CleanPass(names, e, calls);
      TodoIs(names, e, 0);
    } else {
      var i, j :| 0 <= i < j < |names| && names[i] == names[j];
      SecondOfANameIsSkipped(names, e, calls, 0, i, j);
    }
  }

  lemma {:induction false} SecondOfANameIsSkipped(
    names: seq<string>, e: Envelope, calls: Behaviour, i: nat, a: nat, b: nat)
    requires i <= a < b < |names| && names[a] == names[b]
    requires forall k :: 0 <= k < |names| ==> calls(k).Some?
    ensures b !in PassFrom(names, e, calls, i).returned
    decreases |names| - i
  {
    if i == a && !AlreadyHandled(e, names[a]) {
      HandledNow(e, calls(a).value, names[a], names[b]);
      HandledIsSkipped(names, e.With([NewHandled(calls(a).value, names[a])]), calls, i + 1, b);
    } else if i == a {
      HandledIsSkipped(names, e, calls, i + 1, b);
    } else {
      SecondOfANameIsSkipped(names, e, calls, i + 1, a, b);
      if !AlreadyHandled(e, names[i]) {
        SecondOfANameIsSkipped(names, e.With([NewHandled(calls(i).value, names[i])]), calls, i + 1, a, b);
      }
    }
  }

  lemma {:induction false} HandledIsSkipped(names: seq<string>, e: Envelope, calls: Behaviour, i: nat, b: nat)
    requires i <= |names| && b < |names| && AlreadyHandled(e, names[b])
    ensures b !in PassFrom(names, e, calls, i).returned
    decreases |names| - i
  {
    if i < |names| {
      if AlreadyHandled(e, names[i]) {
        HandledIsSkipped(names, e, calls, i + 1, b);
      } else if calls(i).Some? {
        HandledNow(e, calls(i).value, names[i], names[b]);
        HandledIsSkipped(names, e.With([NewHandled(calls(i).value, names[i])]), calls, i + 1, b);
      }
    }
  }

  /** `t` carries the HandledStamps `e` carries. */
  ghost predicate SameHandled(e: Envelope, t: Envelope) {
    forall s: Stamp :: s.cls == HandledStamp ==> (s in e.stamps <==> s in t.stamps)
  }

  lemma WithKeepsHandled(e: Envelope, more: seq<Stamp>)
    requires forall s :: s in more ==> s.cls != HandledStamp
    ensures SameHandled(e, e.With(more))
  {
  }

  lemma WithoutKeepsHandled(e: Envelope, c: Class)
    requires c != HandledStamp
    ensures SameHandled(e, e.WithoutAll(c))
  {
    forall s: Stamp | s.cls == HandledStamp ensures s in e.stamps <==> s in e.WithoutAll(c).stamps {
      DropMembers(e.stamps, {c}, s);
    }
  }

  /** Re-sending, storing, delivering and the middlewares before the handlers touch no HandledStamp. */
  lemma RetryKeepsHandled(policy: Policy, e: Envelope, wait: real, m: Mailbox, entry: Entry)
    requires entry.envelope == Retried(e, wait)
    ensures SameHandled(e, Inner(policy, Delivered(m, entry)))
  {
    var d := Delivered(m, entry);
    WithKeepsHandled(e, [NewRedelivery(e.RetryCount() + 1), NewDelay(wait)]);
    WithKeepsHandled(entry.envelope, [NewReceived(m.name)]);
    WithKeepsHandled(entry.envelope.With([NewReceived(m.name)]), [NewMessageId(entry.id)]);
    WithKeepsHandled(d, [NewBusName(policy.bus)]);
    var named := AddBusName(d, policy.bus);
    WithoutKeepsHandled(named, ReceivedStamp);
    match named.Last(SentToFailureTransportStamp)
    case None =>
    case Some(x) =>
      WithKeepsHandled(named.WithoutAll(ReceivedStamp), [NewReceived(TextOf(x, "originalReceiverName"))]);
  }

  lemma {:induction false} SameTodo(names: seq<string>, e: Envelope, t: Envelope, i: nat)
    requires i <= |names| && SameHandled(e, t)
    ensures Todo(names, e, i) == Todo(names, t, i)
    decreases |names| - i
  {
    if i < |names| {
      assert AlreadyHandled(e, names[i]) <==> AlreadyHandled(t, names[i]) by {
        if s :| s in e.stamps && IsFor(s, names[i]) { assert s in t.stamps; }
        if s :| s in t.stamps && IsFor(s, names[i]) { assert s in e.stamps; }
      }
      SameTodo(names, e, t, i + 1);
    }
  }

  /**
   * The retry middleware re-sends the envelope it was given, not the one its error carries: what
   * the failed pass got done is forgotten, and when the copy comes back to the handlers, delivered
   * by any transport and through the middlewares again, all of it is to be run again.
   */
  lemma RetryForgetsHandled(
    names: seq<string>, policy: Policy, e: Envelope, wait: real, m: Mailbox, entry: Entry)
    requires entry.envelope == Retried(e, wait)
    ensures Todo(names, Inner(policy, Delivered(m, entry)), 0) == Todo(names, e, 0)
  {
    hide Inner, Delivered, Retried, Todo, SameHandled;
    RetryKeepsHandled(policy, e, wait, m, entry);
    SameTodo(names, e, Inner(policy, Delivered(m, entry)), 0);
  }

  /** So a handler runs again after a retry exactly when it was to be run before, whether or not it returned. */
  lemma RetryRepeatsReturned(
    names: seq<string>, policy: Policy, e: Envelope, calls: Behaviour, wait: real, m: Mailbox, entry: Entry,
    again: Behaviour)
    requires Distinct(names) && entry.envelope == Retried(e, wait)
    requires forall k :: 0 <= k < |names| ==> again(k).Some?
    ensures var first := PassFrom(names, e, calls, 0);
      var second := PassFrom(names, Inner(policy, Delivered(m, entry)), again, 0);
      && second.returned == Todo(names, e, 0)
      && (forall k :: k in first.returned ==> k in second.returned)
  {
    hide PassFrom, Retried, Todo, Distinct, Inner, Delivered, SameHandled;
    PassTakesFromTodo(names, e, calls, 0);
    CleanPass(names, Inner(policy, Delivered(m, entry)), again);
    RetryForgetsHandled(names, policy, e, wait, m, entry);
  }
}
