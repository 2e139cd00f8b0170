/**
 * The MySQL claim, a transaction of lock, update and commit, beside any number of others. Every
 * interleaving acts on the table as claims that happen all at once.
 */
module MysqlClaims {
  import opened Common
  import opened SqlTable
  import SqlRuns

  type Claimed = SqlRuns.Claimed

  /** `row` is the locked row (None: the SELECT found nothing), `stamp` the uncommitted update. */
  datatype Stage = Begun | Selected(row: Option<nat>) | Updated(id: nat, stamp: real)

  datatype Txn = Txn(queue: string, timeout: real, stage: Stage)

  /**
   * The reply to a claim's commit: a row with the claimer's lease and its new `delivered_at`, or
   * nothing. A reply that is not `seen` is lost, and the claim fails with its row stamped.
   */
  datatype Reply = Reply(txn: nat, row: Option<Claimed>, seen: bool)

  datatype Server<+B> = Server(db: Db<B>, txns: map<nat, Txn>, replies: seq<Reply>)

  /** `Select`, `Update`, `Commit` and `Destroy` name their transaction; the last four stand for other sessions. */
  datatype Event<+B> =
    | Begin(txn: nat, queue: string, timeout: real)
    | Select(txn: nat)
    | Update(txn: nat)
    | Commit(txn: nat, seen: bool)
    | Destroy(txn: nat)
    | Tick(elapsed: real)
    | Insert(queue: string, body: B, delay: real)
    | Delete(id: nat)
    | Redeliver(id: nat, queue: string, body: B, delay: real)

  predicate Holds(txn: Txn, id: nat) {
    match txn.stage
    case Begun => false
    case Selected(row) => row == Some(id)
    case Updated(held, _) => held == id
  }

  predicate Locked(txns: map<nat, Txn>, id: nat) { exists t :: t in txns && Holds(txns[t], id) }

  /** The rows `FOR UPDATE SKIP LOCKED` may return. */
  function Unlocked<B>(s: Server<B>, queue: string, timeout: real): (ids: set<nat>)
    ensures ids <= s.db.rows.Keys
  {
    set id | id in ClaimableIds(s.db, queue, timeout) && !Locked(s.txns, id)
  }

  function Picked<B>(s: Server<B>, queue: string, timeout: real): Option<nat> {
    var ids := Unlocked(s, queue, timeout);
    if ids == {} then None else Some(First(s.db.rows, ids))
  }

  function Selecting<B>(s: Server<B>, t: nat): Server<B> {
    if t !in s.txns || s.txns[t].stage != Begun then s
    else s.(txns := s.txns[t := s.txns[t].(stage := Selected(Picked(s, s.txns[t].queue, s.txns[t].timeout)))])
  }

  function Updating<B>(s: Server<B>, t: nat): Server<B> {
    if t !in s.txns || !s.txns[t].stage.Selected? || s.txns[t].stage.row.None? then s
    else s.(txns := s.txns[t := s.txns[t].(stage := Updated(s.txns[t].stage.row.value, s.db.clock))])
  }

  /** The locks go and the update, if there was one, becomes visible. */
  function Committing<B>(s: Server<B>, t: nat, seen: bool): Server<B> {
    if t !in s.txns then s
    else match s.txns[t].stage
      case Begun => s
      case Selected(row) =>
        if row.Some? then s else s.(txns := s.txns - {t}, replies := s.replies + [Reply(t, None, seen)])
      case Updated(id, stamp) =>
        if id !in s.db.rows then s
        else
          var won := SqlRuns.Claimed(id, s.txns[t].timeout, stamp);
          Server(Stamped(s.db, id, stamp), s.txns - {t}, s.replies + [Reply(t, Some(won), seen)])
  }

  function Step<B>(s: Server<B>, ev: Event<B>): Server<B> {
    match ev
    case Begin(t, queue, timeout) => if t in s.txns then s else s.(txns := s.txns[t := Txn(queue, timeout, Begun)])
    case Select(t) => Selecting(s, t)
    case Update(t) => Updating(s, t)
    case Commit(t, seen) => Committing(s, t, seen)
    case Destroy(t) => s.(txns := s.txns - {t})
    case Tick(d) => if d < 0.0 then s else s.(db := s.db.(clock := s.db.clock + d))
    case Insert(queue, body, delay) => s.(db := Inserted(s.db, queue, body, delay))
    case Delete(id) => if Locked(s.txns, id) then s else s.(db := Deleted(s.db, id))
    case Redeliver(id, queue, body, delay) =>
      if Locked(s.txns, id) || id >= s.db.nextId then s else s.(db := Redelivered(s.db, id, queue, body, delay))
  }

  function Run<B>(s: Server<B>, events: seq<Event<B>>): Server<B>
    decreases |events|
  {
    if events == [] then s else Run(Step(s, events[0]), events[1..])
  }

  // ---- The table seen from outside ---------------------------------------------------

  /** What one event does to the committed table, all at once. */
  datatype Atomic<+B> =
    | Nothing
    | Pass(elapsed: real)
    | Add(queue: string, body: B, delay: real)
    | Remove(id: nat)
    | Move(id: nat, queue: string, body: B, delay: real)
    | Claim(id: nat, queue: string, timeout: real, stamp: real)

  /** A claim takes a row that is claimable at its own stamp, which is not in the future. */
  predicate Legal<B>(db: Db<B>, op: Atomic<B>) {
    match op
    case Claim(id, queue, timeout, stamp) =>
      id in db.rows && stamp <= db.clock && Claimable(db.rows[id], queue, timeout, stamp)
    case Pass(d) => d >= 0.0
    case _ => true
  }

  function Apply<B>(db: Db<B>, op: Atomic<B>): Db<B>
    requires Legal(db, op)
  {
    match op
    case Nothing => db
    case Pass(d) => db.(clock := db.clock + d)
    case Add(queue, body, delay) => Inserted(db, queue, body, delay)
    case Remove(id) => Deleted(db, id)
    case Move(id, queue, body, delay) => Redelivered(db, id, queue, body, delay)
    case Claim(id, _, _, stamp) => Stamped(db, id, stamp)
  }

  predicate AllLegal<B>(db: Db<B>, ops: seq<Atomic<B>>)
    decreases |ops|
  {
    ops != [] ==> Legal(db, ops[0]) && AllLegal(Apply(db, ops[0]), ops[1..])
  }

  function ApplyAll<B>(db: Db<B>, ops: seq<Atomic<B>>): Db<B>
    requires AllLegal(db, ops)
    decreases |ops|
  {
    if ops == [] then db else ApplyAll(Apply(db, ops[0]), ops[1..])
  }

  /** Only a commit of an updated row shows as a claim; locking, updating and rolling back do not show. */
  function Seen<B>(s: Server<B>, ev: Event<B>): Atomic<B> {
    match ev
    case Commit(t, _) =>
      if t in s.txns && s.txns[t].stage.Updated?
      then Claim(s.txns[t].stage.id, s.txns[t].queue, s.txns[t].timeout, s.txns[t].stage.stamp)
      else Nothing
    case Tick(d) => if d < 0.0 then Nothing else Pass(d)
    case Insert(queue, body, delay) => Add(queue, body, delay)
    case Delete(id) => if Locked(s.txns, id) then Nothing else Remove(id)
    case Redeliver(id, queue, body, delay) =>
      if Locked(s.txns, id) || id >= s.db.nextId then Nothing else Move(id, queue, body, delay)
    case _ => Nothing
  }

  function Trace<B>(s: Server<B>, events: seq<Event<B>>): seq<Atomic<B>>
    decreases |events|
  {
    if events == [] then [] else [Seen(s, events[0])] + Trace(Step(s, events[0]), events[1..])
  }

  /** The claims in `ops`, in order. */
  function ClaimsIn<B>(ops: seq<Atomic<B>>): seq<Claimed> {
    if ops == [] then []
    else (if ops[0].Claim? then [SqlRuns.Claimed(ops[0].id, ops[0].timeout, ops[0].stamp)] else []) + ClaimsIn(ops[1..])
  }

  /** The rows claimed so far, replies lost or not. */
  function Won(replies: seq<Reply>): seq<Claimed> {
    if replies == [] then []
    else Won(replies[..|replies| - 1]) + (match replies[|replies| - 1].row case None => [] case Some(r) => [r])
  }

  /** The rows the driver has returned. */
  function Returned(replies: seq<Reply>): seq<Claimed> {
    if replies == [] then []
    else
      var reply := replies[|replies| - 1];
      Returned(replies[..|replies| - 1])
      + (match reply.row case None => [] case Some(r) => if reply.seen then [r] else [])
  }

  /** `a` is `b` with some elements left out. */
  predicate Subsequence<T(==)>(a: seq<T>, b: seq<T>)
    decreases |b|
  {
    if b == [] then a == []
    else
      || Subsequence(a, b[..|b| - 1])
      || (a != [] && a[|a| - 1] == b[|b| - 1] && Subsequence(a[..|a| - 1], b[..|b| - 1]))
  }

  lemma {:induction false} ReturnedIsWon(replies: seq<Reply>)
    ensures Subsequence(Returned(replies), Won(replies))
  {
    if replies != [] {
      var init, reply := replies[..|replies| - 1], replies[|replies| - 1];
      ReturnedIsWon(init);
      if reply.row.Some? {
        assert Won(replies)[..|Won(replies)| - 1] == Won(init);
        assert if reply.seen then Returned(replies)[..|Returned(replies)| - 1] == Returned(init)
               else Returned(replies) == Returned(init);
      } else {
        assert Won(replies) == Won(init) && Returned(replies) == Returned(init);
      }
    }
  }

  // ---- Why it holds ------------------------------------------------------------------

  /** Once claimable, a row stays so until someone claims it. */
  lemma ClaimableLater<B>(row: Row<B>, queue: string, timeout: real, now: real, later: real)
    requires now <= later
    ensures Claimable(row, queue, timeout, now) ==> Claimable(row, queue, timeout, later)
  {
  }

  ghost predicate LocksHold<B>(s: Server<B>) {
    && (forall t, u, id :: t in s.txns && u in s.txns && Holds(s.txns[t], id) && Holds(s.txns[u], id) ==> t == u)
    && (forall t, id :: t in s.txns && Holds(s.txns[t], id) ==>
          id in s.db.rows && Claimable(s.db.rows[id], s.txns[t].queue, s.txns[t].timeout, s.db.clock))
    && (forall t :: t in s.txns && s.txns[t].stage.Updated? ==>
          && s.txns[t].stage.id in s.db.rows && s.txns[t].stage.stamp <= s.db.clock
          && Claimable(s.db.rows[s.txns[t].stage.id], s.txns[t].queue, s.txns[t].timeout, s.txns[t].stage.stamp))
    && (forall id :: id in s.db.rows ==> id < s.db.nextId)
  }

  lemma SelectingKeepsLocks<B>(s: Server<B>, t: nat)
    requires LocksHold(s)
    ensures LocksHold(Selecting(s, t))
  {
    if t in s.txns {
      var ids := Unlocked(s, s.txns[t].queue, s.txns[t].timeout);
      assert forall u, id :: u in s.txns && Holds(s.txns[u], id) ==> id !in ids;
    }
  }

  lemma CommittingKeepsLocks<B>(s: Server<B>, t: nat, seen: bool)
    requires LocksHold(s)
    ensures LocksHold(Committing(s, t, seen))
  {
    hide Claimable;
  }

  /** Time passes: what was claimable when it was locked stays so. */
  lemma TickKeepsLocks<B>(s: Server<B>, elapsed: real)
    requires LocksHold(s) && elapsed >= 0.0
    ensures LocksHold(s.(db := s.db.(clock := s.db.clock + elapsed)))
  {
    forall t, id | t in s.txns && Holds(s.txns[t], id)
      ensures Claimable(s.db.rows[id], s.txns[t].queue, s.txns[t].timeout, s.db.clock + elapsed)
    {
      ClaimableLater(s.db.rows[id], s.txns[t].queue, s.txns[t].timeout, s.db.clock, s.db.clock + elapsed);
    }
    hide Claimable, Holds;
  }

  /** A change that spares the locked rows keeps every lock good. */
  lemma SparingKeepsLocks<B>(s: Server<B>, db: Db<B>)
    requires LocksHold(s) && db.clock == s.db.clock
    requires forall id :: id in s.db.rows && Locked(s.txns, id) ==> id in db.rows && db.rows[id] == s.db.rows[id]
    requires forall id :: id in db.rows ==> id < db.nextId
    ensures LocksHold(s.(db := db))
  {
    forall t, id | t in s.txns && Holds(s.txns[t], id) ensures id in db.rows && db.rows[id] == s.db.rows[id] {
      assert Locked(s.txns, id);
    }
    forall t | t in s.txns && s.txns[t].stage.Updated?
      ensures s.txns[t].stage.id in db.rows && db.rows[s.txns[t].stage.id] == s.db.rows[s.txns[t].stage.id]
    {
      assert Holds(s.txns[t], s.txns[t].stage.id);
    }
    hide Locked, Holds, Claimable;
  }

  /** A locked row is neither deleted nor redelivered by another session. */
  lemma OthersKeepLocks<B>(s: Server<B>, ev: Event<B>)
    requires LocksHold(s) && (ev.Insert? || ev.Delete? || ev.Redeliver?)
    ensures LocksHold(Step(s, ev))
  {
    hide Locked, Holds, Claimable;
    SparingKeepsLocks(s, Step(s, ev).db);
  }

  lemma StepKeepsLocks<B>(s: Server<B>, ev: Event<B>)
    requires LocksHold(s)
    ensures LocksHold(Step(s, ev))
  {
    match ev
    case Select(t) => SelectingKeepsLocks(s, t);
    case Commit(t, seen) => CommittingKeepsLocks(s, t, seen); hide LocksHold, Committing;
    case Tick(d) => if d >= 0.0 { TickKeepsLocks(s, d); } hide LocksHold;
    case Insert(_, _, _) => OthersKeepLocks(s, ev); hide LocksHold, Step;
    case Delete(_) => OthersKeepLocks(s, ev); hide LocksHold, Step;
    case Redeliver(_, _, _, _) => OthersKeepLocks(s, ev); hide LocksHold, Step;
    case Begin(t, queue, timeout) => OwnStepKeepsLocks(s, ev); hide LocksHold, Step;
    case Update(t) => OwnStepKeepsLocks(s, ev); hide LocksHold, Step;
    case Destroy(t) => OwnStepKeepsLocks(s, ev); hide LocksHold, Step;
  }

  /** The statements that lock no further row. */
  lemma OwnStepKeepsLocks<B>(s: Server<B>, ev: Event<B>)
    requires LocksHold(s) && (ev.Begin? || ev.Update? || ev.Destroy?)
    ensures LocksHold(Step(s, ev))
  {
    hide Locked, Committing, Selecting;
  }

  lemma OneClaim<B>(op: Atomic<B>)
    ensures ClaimsIn([op]) == if op.Claim? then [SqlRuns.Claimed(op.id, op.timeout, op.stamp)] else []
  {
    assert [op][1..] == [];
  }

  lemma StepRefines<B>(s: Server<B>, ev: Event<B>)
    requires LocksHold(s)
    ensures Legal(s.db, Seen(s, ev)) && Step(s, ev).db == Apply(s.db, Seen(s, ev))
    ensures Won(Step(s, ev).replies) == Won(s.replies) + ClaimsIn([Seen(s, ev)])
  {
    OneClaim(Seen(s, ev));
    if ev.Commit? && ev.txn in s.txns {
      var replies := Step(s, ev).replies;
      assert replies == s.replies || replies[..|replies| - 1] == s.replies;
    }
  }

  /** The driver returns the row of a claim exactly when it sees the reply of its commit. */
  lemma CommitReturns<B>(s: Server<B>, t: nat, seen: bool)
    requires LocksHold(s) && t in s.txns && s.txns[t].stage.Updated?
    ensures var claimed := SqlRuns.Claimed(s.txns[t].stage.id, s.txns[t].timeout, s.txns[t].stage.stamp);
      var u := Step(s, Commit(t, seen));
      && Returned(u.replies) == Returned(s.replies) + (if seen then [claimed] else [])
      && Won(u.replies) == Won(s.replies) + [claimed] && t !in u.txns
  {
    var replies := Step(s, Commit(t, seen)).replies;
    assert replies[..|replies| - 1] == s.replies;
  }

  /** What a claim locks: the first row in the table's order that is claimable and not locked, if there is one. */
  lemma SelectPicks<B>(s: Server<B>, t: nat)
    requires t in s.txns && s.txns[t].stage.Begun?
    ensures var u, txn := Step(s, Select(t)), s.txns[t];
      && u.db == s.db && t in u.txns && u.txns[t].stage.Selected?
      && match u.txns[t].stage.row
         case None =>
           forall id :: id in s.db.rows && Claimable(s.db.rows[id], txn.queue, txn.timeout, s.db.clock) ==>
             Locked(s.txns, id)
         case Some(first) =>
           && first in s.db.rows && Claimable(s.db.rows[first], txn.queue, txn.timeout, s.db.clock)
           && !Locked(s.txns, first)
           && forall id :: id in s.db.rows && Claimable(s.db.rows[id], txn.queue, txn.timeout, s.db.clock) ==>
                Locked(s.txns, id) || Before(s.db.rows, first, id)
  {
    hide Claimable, Locked, Before;
    var free := Unlocked(s, s.txns[t].queue, s.txns[t].timeout);
    forall id | id in s.db.rows && Claimable(s.db.rows[id], s.txns[t].queue, s.txns[t].timeout, s.db.clock)
      ensures id in free || Locked(s.txns, id)
    {
    }
  }

  /**
   * Every interleaving of claims refines atomic claims: the table of any run is what its trace of
   * atomic operations makes of the first table, and every claim in that trace takes a row that is
   * claimable at its own stamp. The rows the driver returned are those claims, in order, but for
   * the ones whose reply was lost.
   */
  lemma {:induction false} RunRefines<B>(s: Server<B>, events: seq<Event<B>>)
    requires LocksHold(s)
    ensures LocksHold(Run(s, events))
    ensures AllLegal(s.db, Trace(s, events)) && Run(s, events).db == ApplyAll(s.db, Trace(s, events))
    ensures Won(Run(s, events).replies) == Won(s.replies) + ClaimsIn(Trace(s, events))
    ensures Subsequence(Returned(Run(s, events).replies), Won(Run(s, events).replies))
    decreases |events|
  {
    ReturnedIsWon(Run(s, events).replies);
    hide Subsequence, Returned, Won;
    if events != [] {
      var next, rest := Step(s, events[0]), events[1..];
      StepKeepsLocks(s, events[0]);
      StepRefines(s, events[0]);
      hide LocksHold, Legal, Step, Seen, ClaimsIn, Apply;
      RunRefines(next, rest);
      ClaimsInSplit(Seen(s, events[0]), Trace(next, rest));
      assert Trace(s, events) == [Seen(s, events[0])] + Trace(next, rest);
      assert Trace(s, events)[1..] == Trace(next, rest);
    }
  }

  lemma ClaimsInSplit<B>(op: Atomic<B>, ops: seq<Atomic<B>>)
    ensures ClaimsIn([op] + ops) == ClaimsIn([op]) + ClaimsIn(ops)
  {
    assert ([op] + ops)[1..] == ops && [op][1..] == [];
  }

  /** Claims under way at the same time have different rows. */
  lemma OpenClaimsDiffer<B>(s: Server<B>, events: seq<Event<B>>, t: nat, u: nat, i: nat, j: nat)
    requires LocksHold(s)
    requires var end := Run(s, events);
      t in end.txns && u in end.txns && t != u && Holds(end.txns[t], i) && Holds(end.txns[u], j)
    ensures i != j
  {
    RunRefines(s, events);
  }

  /** A claim whose connection is destroyed at any point leaves everything as it was. */
  lemma DestroyedClaimLeavesNothing<B>(s: Server<B>, t: nat, queue: string, timeout: real)
    requires t !in s.txns
    ensures var begun := Step(s, Begin(t, queue, timeout));
      var selected := Step(begun, Select(t));
      && Step(begun, Destroy(t)) == s
      && Step(selected, Destroy(t)) == s
      && Step(Step(selected, Update(t)), Destroy(t)) == s
  {
    var begun := Step(s, Begin(t, queue, timeout));
    var selected := Step(begun, Select(t));
    hide Picked;
    assert begun.txns - {t} == s.txns && selected.txns - {t} == s.txns;
    assert Step(selected, Update(t)).txns - {t} == s.txns;
  }

  // ---- The driver --------------------------------------------------------------------

  class MysqlServer<B(==)> {
    var db: Db<B>
    var txns: map<nat, Txn>
    var replies: seq<Reply>

    ghost function View(): Server<B>
      reads this
    {
      Server(db, txns, replies)
    }

    /**
     * `claimOne` on connection `t`, beside whatever other transactions are open; `faults` says which
     * of its statements fail. Success stamps the first claimable row nobody has locked, failure
     * changes nothing. With no other transaction open success is the atomic claim of `SqlTable`.
     */
    method ClaimOne(t: nat, queue: string, timeout: real, faults: set<nat>) returns (r: Result<Option<nat>, nat>)
      requires t !in txns
      modifies this
      ensures txns == old(txns)
      ensures r.Err? ==> db == old(db) && replies == old(replies) && r.error in faults
      ensures r.Ok? ==>
        && r.value == Picked(old(View()), queue, timeout)
        && db == (if r.value.None? then old(db) else Stamped(old(db), r.value.value, old(db).clock))
      ensures r.Ok? && old(txns) == map[] ==> (db, r.value) == SqlTable.ClaimOne(old(db), queue, timeout)
      ensures faults == {} ==> r.Ok?
    {
      AloneIsUnlocked(View(), queue, timeout);
      SameLocks(View(), t, queue, timeout);
      txns := txns[t := Txn(queue, timeout, Begun)];
      if 0 in faults {
        txns := txns - {t};
        return Err(0);
      }
      var row := Picked(Server(db, txns, replies), queue, timeout);
      txns := txns[t := txns[t].(stage := Selected(row))];
      if row.Some? {
        if 1 in faults {
          txns := txns - {t};
          return Err(1);
        }
        txns := txns[t := txns[t].(stage := Updated(row.value, db.clock))];
      }
      if 2 in faults {
        txns := txns - {t};
        return Err(2);
      }
      if row.Some? {
        db := Stamped(db, row.value, db.clock);
      }
      txns := txns - {t};
      var got := if row.Some? then Some(SqlRuns.Claimed(row.value, timeout, db.clock)) else None;
      replies := replies + [Reply(t, got, true)];
      r := Ok(row);
    }
  }

  /** A transaction that has only begun locks nothing. */
  lemma SameLocks<B>(s: Server<B>, t: nat, queue: string, timeout: real)
    requires t !in s.txns
    ensures Picked(s.(txns := s.txns[t := Txn(queue, timeout, Begun)]), queue, timeout) == Picked(s, queue, timeout)
    ensures s.txns[t := Txn(queue, timeout, Begun)] - {t} == s.txns
  {
    var more := s.(txns := s.txns[t := Txn(queue, timeout, Begun)]);
    forall id ensures Locked(more.txns, id) <==> Locked(s.txns, id) {
      if u :| u in s.txns && Holds(s.txns[u], id) { assert u in more.txns && Holds(more.txns[u], id); }
    }
    assert Unlocked(more, queue, timeout) == Unlocked(s, queue, timeout);
  }

  lemma AloneIsUnlocked<B>(s: Server<B>, queue: string, timeout: real)
    ensures s.txns == map[] ==> Unlocked(s, queue, timeout) == ClaimableIds(s.db, queue, timeout)
  {
  }

  /**
   * A claim left to itself ends, beside whatever else is open: with the first claimable row nobody has
   * locked, stamped and answered, or, when there is none, with an empty answer; its locks are gone.
   */
  lemma ClaimEnds<B>(s: Server<B>, t: nat, queue: string, timeout: real, seen: bool)
    requires t !in s.txns
    ensures var u := Step(Step(Step(Step(s, Begin(t, queue, timeout)), Select(t)), Update(t)), Commit(t, seen));
      && u.txns == s.txns
      && match Picked(s, queue, timeout)
         case None => u.db == s.db && u.replies == s.replies + [Reply(t, None, seen)]
         case Some(id) =>
           && u.db == Stamped(s.db, id, s.db.clock)
           && u.replies == s.replies + [Reply(t, Some(SqlRuns.Claimed(id, timeout, s.db.clock)), seen)]
  {
    SameLocks(s, t, queue, timeout);
    var a := Step(s, Begin(t, queue, timeout));
    assert a == s.(txns := s.txns[t := Txn(queue, timeout, Begun)]);
    var b := Step(a, Select(t));
    var row := Picked(s, queue, timeout);
    PickedIsRow(s, queue, timeout);
    assert b.txns[t] == Txn(queue, timeout, Selected(row)) && b.txns - {t} == s.txns;
    hide Picked;
    var c := Step(b, Update(t));
    assert c.txns - {t} == s.txns;
  }

  lemma PickedIsRow<B>(s: Server<B>, queue: string, timeout: real)
    ensures Picked(s, queue, timeout).Some? ==> Picked(s, queue, timeout).value in s.db.rows
  {
    assert Unlocked(s, queue, timeout) <= s.db.rows.Keys;
  }
}
