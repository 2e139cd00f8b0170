/** What the lease on a claimed row buys: claims of a row are spaced, and deliveries in time are exclusive. */
module SqlLeases {
  import opened Common
  import opened SqlTable
  import opened SqlRuns

  // ---- Claims of one row are a lease apart -------------------------------------------

  /** When `id` was last claimed. */
  function LastStamp(claims: seq<Claimed>, id: nat): Option<real> {
    if claims == [] then None
    else if claims[|claims| - 1].id == id then Some(claims[|claims| - 1].stamp)
    else LastStamp(claims[..|claims| - 1], id)
  }

  lemma LastStampNext(claims: seq<Claimed>, c: Claimed, id: nat)
    ensures LastStamp(claims + [c], id) == if c.id == id then Some(c.stamp) else LastStamp(claims, id)
  {
    assert (claims + [c])[..|claims + [c]| - 1] == claims;
  }

  lemma {:induction false} NeverClaimed(claims: seq<Claimed>, id: nat)
    requires forall c :: c in claims ==> c.id != id
    ensures LastStamp(claims, id) == None
  {
    if claims != [] { NeverClaimed(claims[..|claims| - 1], id); }
  }

  /** Claim `k` came more than its own lease after the row's previous claim. */
  ghost predicate Spaced(claims: seq<Claimed>, k: nat)
    requires k < |claims|
  {
    match LastStamp(claims[..k], claims[k].id)
    case None => true
    case Some(before) => claims[k].stamp - before > claims[k].timeout
  }

  ghost predicate ClaimsMatch(s: State) {
    && (forall id :: id in s.db.rows ==> id < s.db.nextId && s.db.rows[id].deliveredAt == LastStamp(s.log.claims, id))
    && (forall c :: c in s.log.claims ==> c.id < s.db.nextId)
    && (forall k :: 0 <= k < |s.log.claims| ==> Spaced(s.log.claims, k))
  }

  lemma ClaimMatches(s: State, name: string, id: nat, stamp: real)
    requires ClaimsMatch(s)
    ensures ClaimsMatch(ClaimStep(s, name, id, stamp))
  {
    if CanClaim(s, name, id, stamp) {
      var c := Claimed(id, s.instances[name].timeout, stamp);
      var claims := s.log.claims + [c];
      forall x { LastStampNext(s.log.claims, c, x); }
      forall k | 0 <= k < |claims| ensures Spaced(claims, k) {
        assert claims[..k] == s.log.claims[..k];
        if k == |s.log.claims| {
          assert claims[..k] == s.log.claims;
        } else {
          assert Spaced(s.log.claims, k);
        }
      }
    }
  }

  /** Every other step leaves the claims alone, and a new row has never been claimed. */
  lemma OthersMatch(s: State, ev: Event)
    requires ClaimsMatch(s) && !ev.Claim?
    ensures ClaimsMatch(Step(s, ev))
  {
    NeverClaimed(s.log.claims, s.db.nextId);
    hide LastStamp, Spaced;
  }

  lemma {:induction false} RunMatches(s: State, events: seq<Event>)
    requires ClaimsMatch(s)
    ensures ClaimsMatch(Run(s, events))
    decreases |events|
  {
    if events != [] {
      if events[0].Claim? {
        ClaimMatches(s, events[0].name, events[0].id, events[0].stamp);
      } else {
        OthersMatch(s, events[0]);
      }
      hide ClaimsMatch, ClaimStep;
      RunMatches(Step(s, events[0]), events[1..]);
    }
  }

  lemma {:induction false} LastStampIs(claims: seq<Claimed>, a: nat)
    requires a < |claims| && forall k :: a < k < |claims| ==> claims[k].id != claims[a].id
    ensures LastStamp(claims, claims[a].id) == Some(claims[a].stamp)
  {
    if a < |claims| - 1 { LastStampIs(claims[..|claims| - 1], a); }
  }

  /** In any run, two successive claims of one row are further apart than the second claimer's lease. */
  lemma SuccessiveClaimsAreApart(s: State, events: seq<Event>, a: nat, b: nat)
    requires Initial(s)
    requires a < b < |Run(s, events).log.claims|
    requires var claims := Run(s, events).log.claims;
      claims[a].id == claims[b].id && forall k :: a < k < b ==> claims[k].id != claims[a].id
    ensures var claims := Run(s, events).log.claims;
      claims[b].stamp - claims[a].stamp > claims[b].timeout
  {
    RunMatches(s, events);
    var claims := Run(s, events).log.claims;
    hide Run, LastStamp;
    LastStampIs(claims[..b], a);
    assert Spaced(claims, b);
  }

  lemma {:induction false} LastStampIsLatest(claims: seq<Claimed>, a: nat)
    requires forall k :: 0 <= k < |claims| ==> Spaced(claims, k) && claims[k].timeout >= 0.0
    requires a < |claims|
    ensures LastStamp(claims, claims[a].id).Some? && LastStamp(claims, claims[a].id).value >= claims[a].stamp
  {
    if a < |claims| - 1 {
      var init := claims[..|claims| - 1];
      forall k | 0 <= k < |init| ensures Spaced(init, k) {
        assert Spaced(claims, k) && init[..k] == claims[..k];
      }
      LastStampIsLatest(init, a);
      assert Spaced(claims, |claims| - 1);
    }
  }

  /** With no negative lease, any two claims of one row are. */
  lemma ClaimsAreApart(s: State, events: seq<Event>, a: nat, b: nat)
    requires Initial(s)
    requires a < b < |Run(s, events).log.claims|
    requires var claims := Run(s, events).log.claims;
      claims[a].id == claims[b].id && forall k :: 0 <= k < |claims| ==> claims[k].timeout >= 0.0
    ensures var claims := Run(s, events).log.claims;
      claims[b].stamp - claims[a].stamp > claims[b].timeout
  {
    RunMatches(s, events);
    var claims := Run(s, events).log.claims;
    hide Run, LastStamp;
    forall k | 0 <= k < b ensures Spaced(claims[..b], k) {
      assert Spaced(claims, k) && claims[..b][..k] == claims[..k];
    }
    LastStampIsLatest(claims[..b], a);
    assert Spaced(claims, b);
  }

  // ---- Deliveries that end in time are exclusive -------------------------------------

  /** Someone has `id` in hand: on its way to `get`, delivered, or being settled. */
  ghost predicate InHand(s: State, id: nat) {
    || (exists n :: n in s.tasks && s.tasks[n].held && s.tasks[n].id == id)
    || (exists i :: i in s.instances && id in s.instances[i].inFlight)
  }

  /** At this moment no delivery has outlived any instance's lease. */
  ghost predicate InTime(s: State) {
    forall id, i :: InHand(s, id) && id in s.db.rows && i in s.instances && s.db.rows[id].deliveredAt.Some?
      ==> s.db.clock - s.instances[i].timeout <= s.db.rows[id].deliveredAt.value
  }

  /** A run that is in time throughout. */
  ghost predicate Timely(s: State, events: seq<Event>)
    decreases |events|
  {
    InTime(s) && (events != [] ==> Timely(Step(s, events[0]), events[1..]))
  }

  ghost predicate OneHand(s: State) {
    && (forall m, n :: m in s.tasks && n in s.tasks && s.tasks[m].held && s.tasks[n].held && m != n
          ==> s.tasks[m].id != s.tasks[n].id)
    && (forall n, i :: n in s.tasks && s.tasks[n].held && i in s.instances
          ==> s.tasks[n].id !in s.instances[i].inFlight)
    && (forall i, j, id ::
          i in s.instances && j in s.instances && id in s.instances[i].inFlight && id in s.instances[j].inFlight
          ==> i == j)
  }

  predicate Newest(s: State, id: nat) {
    id in s.log.origin && s.log.origin[id].message in s.log.latest && id == s.log.latest[s.log.origin[id].message]
  }

  ghost predicate OneRow(s: State) { forall id :: id in s.db.rows ==> Newest(s, id) }

  ghost predicate HandsAreLeases(s: State) {
    && (forall id :: InHand(s, id) ==> Newest(s, id))
    && (forall id :: InHand(s, id) && id in s.db.rows ==> s.db.rows[id].deliveredAt.Some?)
  }

  ghost predicate Exclusive(s: State) { Sound(s) && OneHand(s) && OneRow(s) && HandsAreLeases(s) }

  lemma ClaimIsExclusive(s: State, name: string, id: nat, stamp: real)
    requires Exclusive(s) && InTime(s)
    ensures Exclusive(ClaimStep(s, name, id, stamp))
  {
    ClaimKeeps(s, name, id, stamp);
    if CanClaim(s, name, id, stamp) {
      var t := ClaimStep(s, name, id, stamp);
      assert !InHand(s, id);
      forall x ensures InHand(t, x) <==> InHand(s, x) || x == id {
        HandsAfterIssue(s, t, x, Task(name, id, Arriving, true));
      }
      hide InHand, InTime;
      ClaimKeepsOneHand(s, name, id, stamp);
      hide Sound, OneHand;
    }
  }

  lemma HandsAfterIssue(s: State, t: State, x: nat, task: Task)
    requires t.tasks == s.tasks[s.nextTask := task] && s.nextTask !in s.tasks && t.instances == s.instances && task.held
    ensures InHand(t, x) <==> InHand(s, x) || x == task.id
  {
    assert s.nextTask in t.tasks;
    if InHand(s, x) {
      if n :| n in s.tasks && s.tasks[n].held && s.tasks[n].id == x {
        assert n in t.tasks && t.tasks[n] == s.tasks[n];
      }
    }
  }

  lemma ClaimKeepsOneHand(s: State, name: string, id: nat, stamp: real)
    requires OneHand(s) && !InHand(s, id)
    ensures OneHand(ClaimStep(s, name, id, stamp))
  {
  }

  /** Steps that put nothing new in hand and add no row. */
  ghost predicate Fewer(s: State, t: State) {
    && t.log.origin == s.log.origin && t.log.latest == s.log.latest
    && (forall id :: id in t.db.rows ==> id in s.db.rows && t.db.rows[id] == s.db.rows[id])
    && (forall id :: InHand(t, id) ==> InHand(s, id))
  }

  lemma FewerKeeps(s: State, t: State)
    requires OneRow(s) && HandsAreLeases(s) && Fewer(s, t)
    ensures OneRow(t) && HandsAreLeases(t)
  {
    hide InHand;
  }

  lemma ArriveIsExclusive(s: State, n: nat)
    requires Exclusive(s)
    ensures Exclusive(ArriveStep(s, n))
  {
    ArriveKeeps(s, n);
    var t := ArriveStep(s, n);
    if t != s {
      forall id | InHand(t, id) ensures InHand(s, id) {
        if id == s.tasks[n].id { assert n in s.tasks && s.tasks[n].held; }
      }
      FewerKeeps(s, t);
      hide Sound, OneRow, HandsAreLeases, InHand;
    }
  }

  lemma ReleaseKeepsOneHand(s: State, t: State, name: string, id: nat, task: Task)
    requires OneHand(s) && s.nextTask !in s.tasks
    requires name in s.instances && (id in s.instances[name].inFlight <==> task.held) && task.id == id
    requires t.tasks == s.tasks[s.nextTask := task] && t.instances == Release(s, name, id).instances
    ensures OneHand(t)
  {
  }

  lemma ReleaseIsExclusive(s: State, t: State, name: string, id: nat, task: Task)
    requires Exclusive(s) && name in s.instances && (id in s.instances[name].inFlight <==> task.held) && task.id == id
    requires t.tasks == s.tasks[s.nextTask := task] && t.instances == Release(s, name, id).instances
    requires t.db == s.db && t.log.origin == s.log.origin && t.log.latest == s.log.latest
    ensures OneHand(t) && Fewer(s, t)
  {
    ReleaseKeepsOneHand(s, t, name, id, task);
    hide OneHand, OneRow, HandsAreLeases, Sound;
    forall x | InHand(t, x) ensures InHand(s, x) {
      if n :| n in t.tasks && t.tasks[n].held && t.tasks[n].id == x {
        if n == s.nextTask { assert x in s.instances[name].inFlight; } else { assert n in s.tasks; }
      } else {
        var i :| i in t.instances && x in t.instances[i].inFlight;
        assert i in s.instances;
      }
    }
    hide InHand;
  }

  lemma SettleIsExclusive(s: State, name: string, id: nat, delay: real)
    requires Exclusive(s)
    ensures Exclusive(AckStep(s, name, id)) && Exclusive(RejectStep(s, name, id, delay))
  {
    AckKeeps(s, name, id);
    RejectKeeps(s, name, id, delay);
    var t, u := AckStep(s, name, id), RejectStep(s, name, id, delay);
    if t != s {
      ReleaseIsExclusive(s, t, name, id, Task(name, id, Deleting, id in s.instances[name].inFlight));
      FewerKeeps(s, t);
    }
    if u != s {
      ReleaseIsExclusive(s, u, name, id, Task(name, id, Moving(delay), true));
      FewerKeeps(s, u);
    }
    hide Sound, OneRow, HandsAreLeases, OneHand, Fewer, AckStep, RejectStep;
  }

  lemma DeletionIsExclusive(s: State, n: nat, id: nat)
    requires Exclusive(s)
    ensures var t := s.(db := Deleted(s.db, id), tasks := s.tasks - {n}); OneHand(t) && Fewer(s, t)
  {
    var t := s.(db := Deleted(s.db, id), tasks := s.tasks - {n});
    forall x | InHand(t, x) ensures InHand(s, x) {
      if m :| m in t.tasks && t.tasks[m].held && t.tasks[m].id == x { assert m in s.tasks; }
    }
    hide InHand, OneRow, HandsAreLeases, Sound;
  }

  /** A redelivery puts nothing in hand: it takes its own hand off the original, whose row it deletes. */
  lemma MovingIsExclusive(s: State, n: nat)
    requires Exclusive(s) && n in s.tasks && s.tasks[n].work.Moving? && s.tasks[n].owner in s.instances
    ensures Exclusive(CommitStep(s, n))
  {
    CommitKeeps(s, n);
    var t, id := CommitStep(s, n), s.tasks[n].id;
    assert id in s.log.origin;
    assert s.tasks[n].held && InHand(s, id);
    forall x ensures InHand(t, x) ==> InHand(s, x) && x != id {
      if m :| m in t.tasks && t.tasks[m].held && t.tasks[m].id == x { assert m in s.tasks; }
    }
    assert OneHand(t) by { hide InHand, OneRow, HandsAreLeases, Sound; }
    MovingKeepsNewest(s, n);
    hide InHand, OneHand;
  }

  lemma MovingKeepsNewest(s: State, n: nat)
    requires Exclusive(s) && n in s.tasks && s.tasks[n].work.Moving? && s.tasks[n].owner in s.instances
    ensures var t := CommitStep(s, n);
      && OneRow(t)
      && (forall x :: x in t.db.rows && x != s.db.nextId ==> x in s.db.rows && t.db.rows[x] == s.db.rows[x])
      && (forall x :: Newest(s, x) && x != s.tasks[n].id ==> Newest(t, x) && x != s.db.nextId)
  {
    assert s.tasks[n].held && InHand(s, s.tasks[n].id);
    hide InHand, OneHand, WorkMatches, AllKept;
  }

  lemma SendKeepsNewest(s: State, name: string, decodes: bool, delay: real)
    requires Sound(s)
    ensures var t := Sent(s, name, decodes, delay);
      && (forall x :: Newest(s, x) ==> Newest(t, x) && x != s.db.nextId)
      && (forall x :: x in t.db.rows && x != s.db.nextId ==> x in s.db.rows && t.db.rows[x] == s.db.rows[x])
      && (s.db.nextId in t.db.rows ==> Newest(t, s.db.nextId))
  {
    hide WorkMatches, AllKept;
  }

  lemma SendIsExclusive(s: State, name: string, decodes: bool, delay: real)
    requires Exclusive(s)
    ensures Exclusive(Sent(s, name, decodes, delay))
  {
    SendKeeps(s, name, decodes, delay);
    SendKeepsNewest(s, name, decodes, delay);
    SameHands(s, Sent(s, name, decodes, delay));
    assert forall x :: x in s.db.rows ==> x != s.db.nextId;
    hide InHand, OneHand, Sound, Newest, Sent;
  }

  lemma SameHands(s: State, t: State)
    requires s.tasks == t.tasks && s.instances == t.instances
    ensures OneHand(t) <==> OneHand(s)
    ensures forall x :: InHand(t, x) <==> InHand(s, x)
  {
  }

  lemma OthersTakeNothing(s: State, ev: Event)
    requires OneHand(s) && (ev.Tick? || ev.Start? || ev.Abandon? || ev.Close?)
    ensures OneHand(Step(s, ev)) && Fewer(s, Step(s, ev))
  {
    var t := Step(s, ev);
    forall x | InHand(t, x) ensures InHand(s, x) {
      if n :| n in t.tasks && t.tasks[n].held && t.tasks[n].id == x {
        assert n in s.tasks;
      } else {
        var i :| i in t.instances && x in t.instances[i].inFlight;
        assert i in s.instances;
      }
    }
    hide InHand;
  }

  lemma CrashTakesNothing(s: State, name: string)
    requires OneHand(s)
    ensures OneHand(Crashed(s, name)) && Fewer(s, Crashed(s, name))
  {
    var t := Crashed(s, name);
    forall x | InHand(t, x) ensures InHand(s, x) {
      if n :| n in t.tasks && t.tasks[n].held && t.tasks[n].id == x {
        assert n in s.tasks;
      } else {
        var i :| i in t.instances && x in t.instances[i].inFlight;
        assert i in s.instances;
      }
    }
    hide InHand;
  }

  lemma OthersAreExclusive(s: State, ev: Event)
    requires Exclusive(s) && (ev.Tick? || ev.Start? || ev.Abandon? || ev.Close? || ev.Crash?)
    ensures Exclusive(Step(s, ev))
  {
    hide Sound, InHand, OneRow, HandsAreLeases, OneHand, Fewer, Step, Crashed;
    StepKeeps(s, ev);
    if ev.Crash? {
      CrashTakesNothing(s, ev.name);
      CrashStep(s, ev.name);
    } else {
      OthersTakeNothing(s, ev);
    }
    FewerKeeps(s, Step(s, ev));
  }

  lemma CrashStep(s: State, name: string)
    ensures Step(s, Crash(name)) == Crashed(s, name)
  {
  }

  lemma CommitIsExclusive(s: State, n: nat)
    requires Exclusive(s)
    ensures Exclusive(CommitStep(s, n))
  {
    CommitKeeps(s, n);
    if n in s.tasks && s.tasks[n].owner in s.instances && s.tasks[n].id in s.log.origin {
      if s.tasks[n].work.Moving? {
        MovingIsExclusive(s, n);
      } else if s.tasks[n].work.Deleting? {
        DeletionIsExclusive(s, n, s.tasks[n].id);
        FewerKeeps(s, CommitStep(s, n));
      }
    }
    hide Sound, OneHand, OneRow, HandsAreLeases, Fewer, Deleted, Moved;
  }

  lemma StepIsExclusive(s: State, ev: Event)
    requires Exclusive(s) && InTime(s)
    ensures Exclusive(Step(s, ev))
  {
    hide Exclusive, InTime, Sent, ClaimStep, ArriveStep, AckStep, RejectStep, CommitStep, Crashed;
    match ev
    case Send(name, decodes, delay) => SendIsExclusive(s, name, decodes, delay);
    case Claim(name, id, stamp) => ClaimIsExclusive(s, name, id, stamp);
    case Arrive(n) => ArriveIsExclusive(s, n);
    case Ack(name, id) => SettleIsExclusive(s, name, id, 0.0);
    case Reject(name, id, delay) => SettleIsExclusive(s, name, id, delay);
    case Commit(n) => CommitIsExclusive(s, n);
    case _ => OthersAreExclusive(s, ev);
  }

  lemma {:induction false} RunIsExclusive(s: State, events: seq<Event>)
    requires Exclusive(s) && Timely(s, events)
    ensures Exclusive(Run(s, events))
    decreases |events|
  {
    if events != [] {
      StepIsExclusive(s, events[0]);
      hide Exclusive, Step, InTime;
      RunIsExclusive(Step(s, events[0]), events[1..]);
    }
  }

  /**
   * While every delivery ends within every instance's lease, no row is in two hands at once, and
   * the table holds no copy of a message but the newest, which is there until acked.
   */
  lemma LeaseExclusion(s: State, events: seq<Event>)
    requires Initial(s) && Timely(s, events)
    ensures var t := Run(s, events);
      && OneHand(t)
      && forall m :: m in t.log.latest && t.log.latest[m] in t.log.origin
                     && t.log.origin[t.log.latest[m]].decodes && t.log.latest[m] !in t.log.acked
           ==> (set id | id in t.db.rows && t.db.rows[id].body.message == m) == {t.log.latest[m]}
  {
    RunIsExclusive(s, events);
    var t := Run(s, events);
    hide Run, Timely, OneHand, InHand, WorkMatches;
    forall m | m in t.log.latest && t.log.latest[m] in t.log.origin
               && t.log.origin[t.log.latest[m]].decodes && t.log.latest[m] !in t.log.acked
      ensures (set id | id in t.db.rows && t.db.rows[id].body.message == m) == {t.log.latest[m]}
    {
      assert Kept(t, m);
    }
  }

  lemma SecondHand(s: State, name: string, id: nat)
    requires Exclusive(s) && name in s.instances && InHand(s, id) && id in s.db.rows
    ensures s.db.rows[id].deliveredAt.Some?
    ensures !OneHand(ClaimStep(s, name, id, s.db.clock)) <==>
      var row := s.db.rows[id];
      && row.queue == s.instances[name].queue && row.availableAt <= s.db.clock
      && s.db.clock - s.instances[name].timeout > row.deliveredAt.value
  {
    var t := ClaimStep(s, name, id, s.db.clock);
    if CanClaim(s, name, id, s.db.clock) {
      assert s.nextTask in t.tasks && t.tasks[s.nextTask].id == id;
      if n :| n in s.tasks && s.tasks[n].held && s.tasks[n].id == id {
        assert n in t.tasks && t.tasks[n] == s.tasks[n] && n != s.nextTask;
      } else {
        var i :| i in s.instances && id in s.instances[i].inFlight;
        assert i in t.instances && t.instances[i] == s.instances[i];
      }
    }
  }

  /**
   * The condition is exact: after any timely run, a claim of a row that is in hand puts it in two
   * hands exactly when the row is on the claimer's queue, due, and claimed longer ago than the
   * claimer's own timeout.
   */
  lemma SecondHandIff(start: State, events: seq<Event>, name: string, id: nat)
    requires Initial(start) && Timely(start, events)
    requires var s := Run(start, events); name in s.instances && InHand(s, id) && id in s.db.rows
    ensures var s := Run(start, events);
      var row := s.db.rows[id];
      && row.deliveredAt.Some?
      && (!OneHand(ClaimStep(s, name, id, s.db.clock)) <==>
            && row.queue == s.instances[name].queue && row.availableAt <= s.db.clock
            && s.db.clock - s.instances[name].timeout > row.deliveredAt.value)
  {
    assert Exclusive(start);
    RunIsExclusive(start, events);
    hide Run, Timely, Exclusive, OneHand, InHand, ClaimStep;
    SecondHand(Run(start, events), name, id);
  }
}
