/**
 * The machine of `SqlRuns` with MySQL's claims in place of atomic ones: each claim is a transaction
 * of one instance, its statements interleaved with everything else. Every run of it is a run of
 * `SqlRuns`, so what holds of atomic claims holds of these.
 */
module MysqlRuns {
  import opened Common
  import opened SqlTable
  import C = MysqlClaims
  import L = SqlLeases
  import R = SqlRuns

  /** `txns` are the open claims, `owner` the instances they belong to. */
  datatype State = State(core: R.State, txns: map<nat, C.Txn>, owner: map<nat, string>)

  datatype Event =
    | Core(ev: R.Event)
    | Begin(txn: nat, name: string)
    | Select(txn: nat)
    | Update(txn: nat)
    | Commit(txn: nat, seen: bool)
    | Destroy(txn: nat)

  function ServerOf(s: State): C.Server<Content> { C.Server(s.core.db, s.txns, []) }

  /** A DELETE waits for the row's lock. */
  predicate Waits(s: State, ev: R.Event) {
    ev.Commit? && ev.task in s.core.tasks && C.Locked(s.txns, s.core.tasks[ev.task].id)
  }

  /** The row is stamped and its claimer has it coming; when the reply is lost, it has not. */
  function Won(core: R.State, name: string, id: nat, timeout: real, stamp: real, seen: bool): R.State
    requires id in core.db.rows
  {
    var log := core.log.(claims := core.log.claims + [R.Claimed(id, timeout, stamp)]);
    var t := R.Issue(core.(db := Stamped(core.db, id, stamp), log := log), R.Task(name, id, R.Arriving, true));
    if seen then t else t.(tasks := t.tasks - {core.nextTask})
  }

  function Committing(s: State, t: nat, seen: bool): State {
    if t !in s.txns || t !in s.owner then s
    else match s.txns[t].stage
      case Begun => s
      case Selected(row) => if row.Some? then s else s.(txns := s.txns - {t})
      case Updated(id, stamp) =>
        if id !in s.core.db.rows then s
        else s.(core := Won(s.core, s.owner[t], id, s.txns[t].timeout, stamp, seen), txns := s.txns - {t})
  }

  /** When an instance dies its transactions roll back. */
  function Without(s: State, name: string): map<nat, C.Txn> {
    map t | t in s.txns && (t in s.owner ==> s.owner[t] != name) :: s.txns[t]
  }

  function Step(s: State, ev: Event): State {
    match ev
    case Core(e) =>
      if e.Claim? || Waits(s, e) then s
      else s.(core := R.Step(s.core, e), txns := if e.Crash? then Without(s, e.name) else s.txns)
    case Begin(t, name) =>
      if t in s.txns || name !in s.core.instances then s
      else
        var i := s.core.instances[name];
        s.(txns := s.txns[t := C.Txn(i.queue, i.timeout, C.Begun)], owner := s.owner[t := name])
    case Select(t) => s.(txns := C.Selecting(ServerOf(s), t).txns)
    case Update(t) => s.(txns := C.Updating(ServerOf(s), t).txns)
    case Commit(t, seen) => Committing(s, t, seen)
    case Destroy(t) => s.(txns := s.txns - {t})
  }

  function Run(s: State, events: seq<Event>): State
    decreases |events|
  {
    if events == [] then s else Run(Step(s, events[0]), events[1..])
  }

  /** The same step with atomic claims. */
  function Seen(s: State, ev: Event): seq<R.Event> {
    match ev
    case Core(e) => if e.Claim? || Waits(s, e) then [] else [e]
    case Commit(t, seen) =>
      if t in s.txns && t in s.owner && s.txns[t].stage.Updated? && s.txns[t].stage.id in s.core.db.rows
      then [R.Claim(s.owner[t], s.txns[t].stage.id, s.txns[t].stage.stamp)]
           + (if seen then [] else [R.Abandon(s.core.nextTask)])
      else []
    case _ => []
  }

  function Trace(s: State, events: seq<Event>): seq<R.Event>
    decreases |events|
  {
    if events == [] then [] else Seen(s, events[0]) + Trace(Step(s, events[0]), events[1..])
  }

  // ---- Refinement --------------------------------------------------------------------

  /** A claim runs on its instance's queue and lease. */
  ghost predicate OwnersMatch(s: State) {
    forall t :: t in s.txns ==>
      && t in s.owner && s.owner[t] in s.core.instances
      && s.core.instances[s.owner[t]].queue == s.txns[t].queue
      && s.core.instances[s.owner[t]].timeout == s.txns[t].timeout
  }

  ghost predicate Sound(s: State) { C.LocksHold(ServerOf(s)) && OwnersMatch(s) }

  /** What a step of the instances does to the table spares every locked row. */
  lemma CoreKeepsLocks(s: State, e: R.Event)
    requires Sound(s) && !e.Claim? && !Waits(s, e)
    ensures C.LocksHold(ServerOf(s).(db := R.Step(s.core, e).db))
  {
    if e.Tick? {
      if e.elapsed >= 0.0 { C.TickKeepsLocks(ServerOf(s), e.elapsed); }
      hide C.LocksHold;
    } else {
      RowsSpared(s, e);
      hide R.Step, C.Locked;
      C.SparingKeepsLocks(ServerOf(s), R.Step(s.core, e).db);
    }
  }

  lemma RowsSpared(s: State, e: R.Event)
    requires (forall id :: id in s.core.db.rows ==> id < s.core.db.nextId) && !e.Tick? && !e.Claim? && !Waits(s, e)
    ensures var db := R.Step(s.core, e).db;
      && db.clock == s.core.db.clock
      && (forall id :: id in s.core.db.rows && C.Locked(s.txns, id) ==>
            id in db.rows && db.rows[id] == s.core.db.rows[id])
      && (forall id :: id in db.rows ==> id < db.nextId)
  {
    hide C.Locked;
  }

  lemma CoreKeeps(s: State, e: R.Event)
    requires Sound(s)
    ensures Sound(Step(s, Core(e)))
  {
    if !e.Claim? && !Waits(s, e) {
      CoreKeepsLocks(s, e);
      var t := Step(s, Core(e));
      FewerLocksHold(ServerOf(s).(db := t.core.db), t.txns);
      assert OwnersMatch(t) by { hide C.LocksHold; InstancesStay(s.core, e); }
      hide C.LocksHold, OwnersMatch;
    }
  }

  /** No step but a crash changes an instance's queue or lease. */
  lemma InstancesStay(core: R.State, e: R.Event)
    ensures forall i :: i in core.instances && !(e.Crash? && e.name == i) ==>
      && i in R.Step(core, e).instances
      && R.Step(core, e).instances[i].queue == core.instances[i].queue
      && R.Step(core, e).instances[i].timeout == core.instances[i].timeout
  {
  }

  lemma FewerLocksHold(v: C.Server<Content>, txns: map<nat, C.Txn>)
    requires C.LocksHold(v) && forall t :: t in txns ==> t in v.txns && txns[t] == v.txns[t]
    ensures C.LocksHold(v.(txns := txns))
  {
    hide C.Holds, Claimable;
  }

  /** The statements of a claim keep the locks as they do in `MysqlClaims`. */
  lemma ClaimKeeps(s: State, ev: Event)
    requires Sound(s) && !ev.Core?
    ensures Sound(Step(s, ev))
  {
    var v := ServerOf(s);
    match ev
    case Begin(t, name) =>
      if t !in s.txns && name in s.core.instances {
        C.StepKeepsLocks(v, C.Begin(t, s.core.instances[name].queue, s.core.instances[name].timeout));
      }
      hide C.LocksHold;
    case Select(t) => C.SelectingKeepsLocks(v, t); hide C.LocksHold, C.Picked;
    case Update(t) => C.StepKeepsLocks(v, C.Update(t)); hide C.LocksHold;
    case Commit(t, seen) =>
      CommitKeeps(s, t, seen);
      hide Sound;
    case Destroy(t) => FewerLocksHold(v, s.txns - {t}); hide C.LocksHold;
  }

  lemma CommitKeeps(s: State, t: nat, seen: bool)
    requires Sound(s)
    ensures Sound(Step(s, Commit(t, seen)))
  {
    var v := ServerOf(s);
    C.CommittingKeepsLocks(v, t, seen);
    FewerLocksHold(v, s.txns - {t});
    assert C.LocksHold(ServerOf(Step(s, Commit(t, seen)))) by { RepliesDoNotMatter(C.Committing(v, t, seen)); }
    hide C.LocksHold;
  }

  lemma RepliesDoNotMatter(v: C.Server<Content>)
    ensures C.LocksHold(v) <==> C.LocksHold(v.(replies := []))
  {
  }

  lemma {:induction false} RunInTwo(s: R.State, a: seq<R.Event>, b: seq<R.Event>)
    ensures R.Run(s, a + b) == R.Run(R.Run(s, a), b)
    decreases |a|
  {
    hide R.Step;
    if a == [] {
      assert a + b == b;
    } else {
      assert (a + b)[1..] == a[1..] + b;
      RunInTwo(R.Step(s, a[0]), a[1..], b);
    }
  }

  lemma RunOfOne(s: R.State, e: R.Event)
    ensures R.Run(s, [e]) == R.Step(s, e)
  {
    hide R.Step;
    assert [e][1..] == [] && R.Run(R.Step(s, e), []) == R.Step(s, e);
  }

  /** A committed claim is one the atomic machine can make, at the stamp of its own update. */
  lemma CommitIsClaim(s: State, t: nat, seen: bool)
    requires Sound(s) && t in s.txns && s.txns[t].stage.Updated?
    ensures var id, stamp := s.txns[t].stage.id, s.txns[t].stage.stamp;
      && id in s.core.db.rows && R.CanClaim(s.core, s.owner[t], id, stamp)
      && Won(s.core, s.owner[t], id, s.txns[t].timeout, stamp, true) == R.Step(s.core, R.Claim(s.owner[t], id, stamp))
      && Won(s.core, s.owner[t], id, s.txns[t].timeout, stamp, false)
         == R.Step(R.Step(s.core, R.Claim(s.owner[t], id, stamp)), R.Abandon(s.core.nextTask))
  {
    hide Claimable;
  }

  lemma StepRefines(s: State, ev: Event)
    requires Sound(s)
    ensures Step(s, ev).core == R.Run(s.core, Seen(s, ev))
  {
    RunOfNone(s.core);
    match ev
    case Core(e) =>
      if !e.Claim? && !Waits(s, e) { RunOfOne(s.core, e); }
      hide R.Step, R.Run, Sound;
    case Commit(t, seen) =>
      if t in s.txns && s.txns[t].stage.Updated? {
        CommitIsClaim(s, t, seen);
        var claim := R.Claim(s.owner[t], s.txns[t].stage.id, s.txns[t].stage.stamp);
        RunOfOne(s.core, claim);
        RunInTwo(s.core, [claim], [R.Abandon(s.core.nextTask)]);
        RunOfOne(R.Step(s.core, claim), R.Abandon(s.core.nextTask));
        hide R.Step, R.Run, Won;
        assert [claim] + [] == [claim];
      }
    case _ =>
  }

  lemma RunOfNone(s: R.State)
    ensures R.Run(s, []) == s
  {
  }

  /**
   * Every run with MySQL's claims is a run with atomic ones: the instances, the table and the record
   * end up as after the trace, in which each claim is taken where its transaction commits.
   */
  lemma {:induction false} RunRefines(s: State, events: seq<Event>)
    requires Sound(s)
    ensures Sound(Run(s, events)) && Run(s, events).core == R.Run(s.core, Trace(s, events))
    decreases |events|
  {
    if events == [] {
      RunOfNone(s.core);
    } else {
      if events[0].Core? { CoreKeeps(s, events[0].ev); } else { ClaimKeeps(s, events[0]); }
      StepRefines(s, events[0]);
      hide Sound, Step, Seen, R.Run;
      RunRefines(Step(s, events[0]), events[1..]);
      RunInTwo(s.core, Seen(s, events[0]), Trace(Step(s, events[0]), events[1..]));
    }
  }

  // ---- What carries over -------------------------------------------------------------

  predicate Initial(s: State) { R.Initial(s.core) && s.txns == map[] }

  lemma InitialIsSound(s: State)
    requires Initial(s)
    ensures Sound(s)
  {
  }

  /** At-least-once with MySQL's claims. */
  lemma AtLeastOnce(s: State, events: seq<Event>, m: nat)
    requires Initial(s) && m < Run(s, events).core.log.messages
    ensures var t := Run(s, events).core;
      && m in t.log.latest && t.log.latest[m] in t.log.origin
      && t.log.origin[t.log.latest[m]].message == m
      && (t.log.origin[t.log.latest[m]].decodes ==>
            || t.log.latest[m] in t.log.acked
            || (t.log.latest[m] in t.db.rows && t.db.rows[t.log.latest[m]].body == Content(m, true)))
  {
    InitialIsSound(s);
    RunRefines(s, events);
    hide Run, Trace, Sound, R.Run;
    R.AtLeastOnce(s.core, Trace(s, events), m);
  }

  /**
   * Lease exclusion with MySQL's claims: while every delivery ends within every instance's lease, no
   * row is in two hands, and an unacked decodable message has exactly one row.
   */
  lemma LeaseExclusion(s: State, events: seq<Event>)
    requires Initial(s) && L.Timely(s.core, Trace(s, events))
    ensures var t := Run(s, events).core;
      && L.OneHand(t)
      && forall m :: m in t.log.latest && t.log.latest[m] in t.log.origin
                     && t.log.origin[t.log.latest[m]].decodes && t.log.latest[m] !in t.log.acked
           ==> (set id | id in t.db.rows && t.db.rows[id].body.message == m) == {t.log.latest[m]}
  {
    InitialIsSound(s);
    RunRefines(s, events);
    hide Run, Trace, Sound, R.Run, L.Timely, L.OneHand;
    L.LeaseExclusion(s.core, Trace(s, events));
  }

  /**
   * With no negative lease, two claims of one row are more than the later claimer's lease apart, by
   * the stamps of their updates: claims closer together than that, overlapping ones among them, take
   * different rows, whether or not their replies arrive.
   */
  lemma CloseClaimsDiffer(s: State, events: seq<Event>, a: nat, b: nat)
    requires Initial(s) && a < b < |Run(s, events).core.log.claims|
    requires var claims := Run(s, events).core.log.claims;
      && (forall k :: 0 <= k < |claims| ==> claims[k].timeout >= 0.0)
      && claims[b].stamp - claims[a].stamp <= claims[b].timeout
    ensures var claims := Run(s, events).core.log.claims; claims[a].id != claims[b].id
  {
    InitialIsSound(s);
    RunRefines(s, events);
    hide Run, Trace, Sound, R.Run;
    if Run(s, events).core.log.claims[a].id == Run(s, events).core.log.claims[b].id {
      L.ClaimsAreApart(s.core, Trace(s, events), a, b);
    }
  }

  // ---- A claim of an instance, from its first statement to its end -------------------

  /**
   * A claim left to itself ends as one atomic claim of the first claimable row that nobody has
   * locked, its reply seen or lost, or with nothing when there is none; and leaves no transaction.
   */
  lemma ClaimEnds(s: State, t: nat, name: string, seen: bool)
    requires t !in s.txns && name in s.core.instances
    ensures var u := Step(Step(Step(Step(s, Begin(t, name)), Select(t)), Update(t)), Commit(t, seen));
      var i := s.core.instances[name];
      && u.txns == s.txns
      && match C.Picked(ServerOf(s), i.queue, i.timeout)
         case None => u.core == s.core
         case Some(id) =>
           && id in s.core.db.rows
           && u.core == Won(s.core, name, id, i.timeout, s.core.db.clock, seen)
  {
    var i := s.core.instances[name];
    var v := ServerOf(s);
    C.SameLocks(v, t, i.queue, i.timeout);
    C.PickedIsRow(v, i.queue, i.timeout);
    var a := Step(s, Begin(t, name));
    assert a.txns == s.txns[t := C.Txn(i.queue, i.timeout, C.Begun)] && a.owner[t] == name && a.core == s.core;
    assert ServerOf(a) == v.(txns := v.txns[t := C.Txn(i.queue, i.timeout, C.Begun)]);
    var b := Step(a, Select(t));
    var row := C.Picked(v, i.queue, i.timeout);
    assert b.txns[t] == C.Txn(i.queue, i.timeout, C.Selected(row)) && b.txns - {t} == s.txns && b.owner == a.owner;
    hide C.Picked, Won;
    var c := Step(b, Update(t));
    assert c.txns - {t} == s.txns && c.owner == a.owner && c.core == s.core;
  }

  /** A destroyed claim is as if it had never begun, at whatever statement it is cut off. */
  lemma DestroyedClaimLeavesNothing(s: State, t: nat, name: string)
    requires t !in s.txns && name in s.core.instances
    ensures var begun := Step(s, Begin(t, name));
      var selected := Step(begun, Select(t));
      var updated := Step(selected, Update(t));
      forall x :: x in {begun, selected, updated} ==>
        t in x.txns && Step(x, Destroy(t)).txns == s.txns && Step(x, Destroy(t)).core == s.core
  {
    hide C.Picked;
    var begun := Step(s, Begin(t, name));
    assert begun.txns - {t} == s.txns;
    var selected := Step(begun, Select(t));
    assert selected.txns - {t} == s.txns;
    var updated := Step(selected, Update(t));
    assert updated.txns - {t} == s.txns;
  }
}
