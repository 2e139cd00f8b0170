/**
 * The one table behind every SQL queue: what each statement of the drivers does to it, and how
 * claiming, counting and listing agree. `B` is whatever a row's body and headers hold.
 */
module SqlTable {
  import opened Common

  datatype Row<+B> = Row(queue: string, body: B, availableAt: real, deliveredAt: Option<real>)

  /** `nextId` is the identity column's next value, `clock` the server's `now()` in milliseconds. */
  datatype Db<+B> = Db(rows: map<nat, Row<B>>, nextId: nat, clock: real)

  // ---- Statements --------------------------------------------------------------------

  /** The claim's WHERE clause: due, and never delivered or delivered longer ago than the lease. */
  predicate Claimable<B>(row: Row<B>, queue: string, timeout: real, now: real) {
    && row.queue == queue
    && row.availableAt <= now
    && (row.deliveredAt.None? || row.deliveredAt.value < now - timeout)
  }

  function Inserted<B>(db: Db<B>, queue: string, body: B, delay: real): Db<B> {
    db.(rows := db.rows[db.nextId := Row(queue, body, db.clock + delay, None)], nextId := db.nextId + 1)
  }

  function Deleted<B>(db: Db<B>, id: nat): Db<B> { db.(rows := db.rows - {id}) }

  /** One transaction: the copy appears and the original goes, if it is still there. */
  function Redelivered<B>(db: Db<B>, id: nat, queue: string, body: B, delay: real): Db<B> {
    Deleted(Inserted(db, queue, body, delay), id)
  }

  function Stamped<B>(db: Db<B>, id: nat, at: real): Db<B>
    requires id in db.rows
  {
    db.(rows := db.rows[id := db.rows[id].(deliveredAt := Some(at))])
  }

  /** A new row can be claimed on its queue exactly from its due time on. */
  lemma InsertedIsDueIff<B>(db: Db<B>, queue: string, body: B, delay: real, other: string, timeout: real, later: real)
    ensures var t := Inserted(db, queue, body, delay).(clock := later);
      db.nextId in ClaimableIds(t, other, timeout) <==> other == queue && later >= db.clock + delay
  {
  }

  // ---- ORDER BY available_at, id -----------------------------------------------------

  predicate Before<B>(rows: map<nat, Row<B>>, i: nat, j: nat)
    requires i in rows && j in rows
  {
    rows[i].availableAt < rows[j].availableAt || (rows[i].availableAt == rows[j].availableAt && i <= j)
  }

  predicate Leads<B>(rows: map<nat, Row<B>>, ids: set<nat>, i: nat)
    requires ids <= rows.Keys
  {
    i in ids && forall j :: j in ids ==> Before(rows, i, j)
  }

  lemma {:induction false} FirstExists<B>(rows: map<nat, Row<B>>, ids: set<nat>)
    requires ids != {} && ids <= rows.Keys
    ensures exists i :: Leads(rows, ids, i)
    decreases |ids|
  {
    var x :| x in ids;
    var rest := ids - {x};
    assert ids == rest + {x};
    if rest == {} {
      assert Leads(rows, ids, x);
    } else {
      FirstExists(rows, rest);
      var y :| Leads(rows, rest, y);
      LeadsWithOneMore(rows, rest, x, y);
    }
  }

  lemma LeadsWithOneMore<B>(rows: map<nat, Row<B>>, rest: set<nat>, x: nat, y: nat)
    requires rest <= rows.Keys && x in rows && Leads(rows, rest, y)
    ensures exists i :: Leads(rows, rest + {x}, i)
  {
    var least := if Before(rows, x, y) then x else y;
    forall j | j in rest + {x} ensures Before(rows, least, j) {
      assert j in rest ==> Before(rows, y, j);
    }
    assert Leads(rows, rest + {x}, least);
  }

  function First<B>(rows: map<nat, Row<B>>, ids: set<nat>): (i: nat)
    requires ids != {} && ids <= rows.Keys
    ensures i in ids && forall j :: j in ids ==> Before(rows, i, j)
  {
    FirstExists(rows, ids);
    var i: nat :| Leads(rows, ids, i);
    i
  }

  /** `ids` in the table's order. */
  function InOrder<B>(rows: map<nat, Row<B>>, ids: set<nat>): seq<nat>
    requires ids <= rows.Keys
    decreases |ids|
  {
    if ids == {} then [] else var i := First(rows, ids); [i] + InOrder(rows, ids - {i})
  }

  // ---- Queries -----------------------------------------------------------------------

  function ClaimableIds<B>(db: Db<B>, queue: string, timeout: real): (ids: set<nat>)
    ensures ids <= db.rows.Keys
  {
    set id | id in db.rows && Claimable(db.rows[id], queue, timeout, db.clock)
  }

  function QueueIds<B>(db: Db<B>, queue: string): (ids: set<nat>)
    ensures ids <= db.rows.Keys
  {
    set id | id in db.rows && db.rows[id].queue == queue
  }

  /** `claimOne`, with no other transaction open. */
  function ClaimOne<B>(db: Db<B>, queue: string, timeout: real): (r: (Db<B>, Option<nat>)) {
    var ids := ClaimableIds(db, queue, timeout);
    if ids == {} then (db, None) else var id := First(db.rows, ids); (Stamped(db, id, db.clock), Some(id))
  }

  function Count<B>(db: Db<B>, queue: string, timeout: real): nat { |ClaimableIds(db, queue, timeout)| }

  function Listing<B>(db: Db<B>, queue: string, limit: nat): seq<nat> {
    var all := InOrder(db.rows, QueueIds(db, queue));
    if |all| <= limit then all else all[..limit]
  }

  /** What `n` claims in a row return while the clock stands still. */
  function Claims<B>(db: Db<B>, queue: string, timeout: real, n: nat): seq<Option<nat>>
    decreases n
  {
    if n == 0 then [] else
      var (next, got) := ClaimOne(db, queue, timeout);
      [got] + Claims(next, queue, timeout, n - 1)
  }

  // ---- The order ---------------------------------------------------------------------

  lemma {:induction false} InOrderFacts<B>(rows: map<nat, Row<B>>, ids: set<nat>)
    requires ids <= rows.Keys
    ensures |InOrder(rows, ids)| == |ids|
    ensures forall x :: x in InOrder(rows, ids) <==> x in ids
    ensures forall i, j :: 0 <= i < j < |ids| ==>
      && InOrder(rows, ids)[i] != InOrder(rows, ids)[j]
      && Before(rows, InOrder(rows, ids)[i], InOrder(rows, ids)[j])
    decreases |ids|
  {
    if ids != {} {
      var i := First(rows, ids);
      InOrderFacts(rows, ids - {i});
    }
  }

  /** `ORDER BY available_at, id`: row `i` is due before row `j`, or at the same time with the smaller id. */
  ghost predicate Earlier<B>(rows: map<nat, Row<B>>, i: nat, j: nat) {
    i in rows && j in rows
    && (rows[i].availableAt <= rows[j].availableAt && (rows[i].availableAt == rows[j].availableAt ==> i < j))
  }

  /**
   * The listing is the front of the queue: as many of its rows as asked for or as there are, the earlier
   * first, and each earlier than all rows of the queue that are not listed.
   */
  lemma ListingIsFront<B>(db: Db<B>, queue: string, limit: nat)
    ensures var ids := Listing(db, queue, limit);
      && |ids| <= limit
      && (forall x :: x in ids ==> x in db.rows && db.rows[x].queue == queue)
      && (forall i, j :: 0 <= i < j < |ids| ==> Earlier(db.rows, ids[i], ids[j]))
      && (forall y :: y in db.rows && db.rows[y].queue == queue && y !in ids ==>
            |ids| == limit && forall x :: x in ids ==> Earlier(db.rows, x, y))
  {
    var ids, all := Listing(db, queue, limit), QueueIds(db, queue);
    InOrderFacts(db.rows, all);
    var order := InOrder(db.rows, all);
    assert forall i :: 0 <= i < |ids| ==> ids[i] == order[i];
    forall i, j | 0 <= i < j < |ids| ensures Earlier(db.rows, ids[i], ids[j]) {
      assert order[i] != order[j] && Before(db.rows, order[i], order[j]);
      assert order[i] in all && order[j] in all;
    }
    forall x | x in ids ensures x in all {}
    forall x, y | x in ids && y in all && y !in ids ensures Earlier(db.rows, x, y) && |ids| == limit {
      var i :| 0 <= i < |ids| && ids[i] == x;
      assert y in order;
      var j :| 0 <= j < |order| && order[j] == y;
      assert j >= |ids| && Before(db.rows, x, y);
    }
    forall y | y in all && y !in ids ensures |ids| == limit {
      assert y in order;
    }
  }

  /** A row's lease is over, or it was never claimed. */
  predicate Free<B>(row: Row<B>, timeout: real, now: real) {
    row.deliveredAt.Some? ==> now - row.deliveredAt.value > timeout
  }

  /**
   * A claim takes the earliest row of its queue that is due and free, stamps it and changes no other;
   * it comes back empty exactly when there is none.
   */
  lemma ClaimTakesEarliest<B>(db: Db<B>, queue: string, timeout: real)
    ensures var (after, got) := ClaimOne(db, queue, timeout);
      match got
      case None =>
        && after == db
        && forall x :: x in db.rows && db.rows[x].queue == queue && db.rows[x].availableAt <= db.clock ==>
             !Free(db.rows[x], timeout, db.clock)
      case Some(id) =>
        && id in db.rows && db.rows[id].queue == queue && db.rows[id].availableAt <= db.clock
        && Free(db.rows[id], timeout, db.clock)
        && after == db.(rows := db.rows[id := db.rows[id].(deliveredAt := Some(db.clock))])
        && forall x :: x in db.rows && x != id && db.rows[x].queue == queue && db.rows[x].availableAt <= db.clock ==>
             Free(db.rows[x], timeout, db.clock) ==> Earlier(db.rows, id, x)
  {
    var ids := ClaimableIds(db, queue, timeout);
    if ids == {} {
      forall x | x in db.rows && db.rows[x].queue == queue && db.rows[x].availableAt <= db.clock
        ensures !Free(db.rows[x], timeout, db.clock)
      {
        assert x !in ids;
      }
    } else {
      var id := First(db.rows, ids);
      forall x | x in db.rows && x != id && db.rows[x].queue == queue && db.rows[x].availableAt <= db.clock
                 && Free(db.rows[x], timeout, db.clock) ensures Earlier(db.rows, id, x) {
        assert x in ids && Before(db.rows, id, x);
      }
    }
  }

  /** Delivery times play no part in the order. */
  lemma {:induction false} OrderIgnoresDelivery<B>(rows: map<nat, Row<B>>, later: map<nat, Row<B>>, ids: set<nat>)
    requires ids <= rows.Keys && ids <= later.Keys
    requires forall id :: id in ids ==> rows[id].availableAt == later[id].availableAt
    ensures InOrder(rows, ids) == InOrder(later, ids)
    decreases |ids|
  {
    if ids != {} {
      var i := First(rows, ids);
      assert Before(rows, First(later, ids), i);
      assert First(later, ids) == i;
      OrderIgnoresDelivery(rows, later, ids - {i});
    }
  }

  function Restricted(all: seq<nat>, ids: set<nat>): seq<nat> {
    if all == [] then [] else (if all[0] in ids then [all[0]] else []) + Restricted(all[1..], ids)
  }

  lemma {:induction false} RestrictedInOrder<B>(rows: map<nat, Row<B>>, all: set<nat>, ids: set<nat>)
    requires ids <= all <= rows.Keys
    ensures Restricted(InOrder(rows, all), ids) == InOrder(rows, ids)
    decreases |all|
  {
    if all != {} {
      var i := First(rows, all);
      var rest := all - {i};
      assert InOrder(rows, all)[1..] == InOrder(rows, rest);
      if i in ids {
        assert Before(rows, First(rows, ids), i);
        assert First(rows, ids) == i;
        RestrictedInOrder(rows, rest, ids - {i});
        RestrictedSame(InOrder(rows, rest), ids, i, rows, rest);
      } else {
        RestrictedInOrder(rows, rest, ids);
      }
    }
  }

  lemma RestrictedSame<B>(s: seq<nat>, ids: set<nat>, i: nat, rows: map<nat, Row<B>>, rest: set<nat>)
    requires rest <= rows.Keys && s == InOrder(rows, rest) && i !in rest
    ensures Restricted(s, ids) == Restricted(s, ids - {i})
  {
    InOrderFacts(rows, rest);
    RestrictedWithout(s, ids, i);
  }

  lemma {:induction false} RestrictedWithout(s: seq<nat>, ids: set<nat>, i: nat)
    requires i !in s
    ensures Restricted(s, ids) == Restricted(s, ids - {i})
  {
    if s != [] {
      RestrictedWithout(s[1..], ids, i);
    }
  }

  // ---- Draining ----------------------------------------------------------------------

  function Somes(ids: seq<nat>): seq<Option<nat>> {
    if ids == [] then [] else [Some(ids[0])] + Somes(ids[1..])
  }

  function Nones(n: nat): seq<Option<nat>> { if n == 0 then [] else [None] + Nones(n - 1) }

  /** A claim takes the first claimable row out of the running, when leases do not run backwards. */
  lemma ClaimShrinks<B>(db: Db<B>, queue: string, timeout: real)
    requires timeout >= 0.0 && ClaimableIds(db, queue, timeout) != {}
    ensures var id := First(db.rows, ClaimableIds(db, queue, timeout));
      && ClaimableIds(ClaimOne(db, queue, timeout).0, queue, timeout) == ClaimableIds(db, queue, timeout) - {id}
      && InOrder(ClaimOne(db, queue, timeout).0.rows, ClaimableIds(db, queue, timeout) - {id})
         == InOrder(db.rows, ClaimableIds(db, queue, timeout) - {id})
  {
    var ids := ClaimableIds(db, queue, timeout);
    OrderIgnoresDelivery(db.rows, ClaimOne(db, queue, timeout).0.rows, ids - {First(db.rows, ids)});
  }

  /**
   * At a frozen clock and with a non-negative lease, repeated claims return exactly the counted
   * rows, each once, in the order of the listing, and from then on nothing.
   */
  lemma {:induction false} DrainAgrees<B>(db: Db<B>, queue: string, timeout: real, more: nat)
    requires timeout >= 0.0
    ensures var ids := ClaimableIds(db, queue, timeout);
      Claims(db, queue, timeout, Count(db, queue, timeout) + more)
      == Somes(Restricted(InOrder(db.rows, QueueIds(db, queue)), ids)) + Nones(more)
  {
    RestrictedInOrder(db.rows, QueueIds(db, queue), ClaimableIds(db, queue, timeout));
    ClaimsDrain(db, queue, timeout, more);
  }

  lemma {:induction false} ClaimsDrain<B>(db: Db<B>, queue: string, timeout: real, more: nat)
    requires timeout >= 0.0
    ensures var ids := ClaimableIds(db, queue, timeout);
      Claims(db, queue, timeout, |ids| + more) == Somes(InOrder(db.rows, ids)) + Nones(more)
    decreases |ClaimableIds(db, queue, timeout)|, more
  {
    var ids := ClaimableIds(db, queue, timeout);
    if ids == {} {
      if more > 0 {
        ClaimsDrain(db, queue, timeout, more - 1);
      }
    } else {
      var i := First(db.rows, ids);
      var next := ClaimOne(db, queue, timeout).0;
      ClaimShrinks(db, queue, timeout);
      assert |ids - {i}| == |ids| - 1;
      ClaimsDrain(next, queue, timeout, more);
      assert InOrder(db.rows, ids)[1..] == InOrder(db.rows, ids - {i});
    }
  }

  lemma {:induction false} ClaimsLength<B>(db: Db<B>, queue: string, timeout: real, n: nat)
    ensures |Claims(db, queue, timeout, n)| == n
    decreases n
  {
    if n > 0 { ClaimsLength(ClaimOne(db, queue, timeout).0, queue, timeout, n - 1); }
  }

  /**
   * Draining ends exactly when the lease is not negative or nothing was claimable: then, and only
   * then, the claim after the counted ones comes back empty.
   */
  lemma DrainEndsIff<B>(db: Db<B>, queue: string, timeout: real)
    ensures var n := Count(db, queue, timeout);
      && |Claims(db, queue, timeout, n + 1)| == n + 1
      && (Claims(db, queue, timeout, n + 1)[n].None? <==> timeout >= 0.0 || n == 0)
  {
    hide Claims, InOrder, First, ClaimOne;
    var ids := ClaimableIds(db, queue, timeout);
    ClaimsLength(db, queue, timeout, |ids| + 1);
    if timeout >= 0.0 || ids == {} {
      LastOfDrain(db, queue, timeout);
    } else {
      NegativeLeaseNeverDrains(db, queue, timeout, |ids| + 1, |ids|);
    }
  }

  lemma LastOfDrain<B>(db: Db<B>, queue: string, timeout: real)
    requires timeout >= 0.0 || ClaimableIds(db, queue, timeout) == {}
    ensures var n := |ClaimableIds(db, queue, timeout)|;
      |Claims(db, queue, timeout, n + 1)| == n + 1 && Claims(db, queue, timeout, n + 1)[n] == None
  {
    var ids := ClaimableIds(db, queue, timeout);
    if timeout >= 0.0 {
      hide Claims, InOrder, ClaimableIds, First, ClaimOne;
      ClaimsDrain(db, queue, timeout, 1);
      InOrderFacts(db.rows, ids);
      SomesLength(InOrder(db.rows, ids));
      assert Nones(1) == [None] + Nones(0);
    } else {
      hide InOrder, First, Claimable;
      assert Claims(db, queue, timeout, 1) == [None] + Claims(db, queue, timeout, 0);
    }
  }

  lemma {:induction false} SomesLength(ids: seq<nat>)
    ensures |Somes(ids)| == |ids|
  {
    if ids != [] { SomesLength(ids[1..]); }
  }

  /** With a negative lease a claimed row is at once claimable again. */
  lemma {:induction false} NegativeLeaseNeverDrains<B>(db: Db<B>, queue: string, timeout: real, n: nat, k: nat)
    requires timeout < 0.0 && ClaimableIds(db, queue, timeout) != {} && k < n
    ensures |Claims(db, queue, timeout, n)| == n && Claims(db, queue, timeout, n)[k].Some?
    decreases n
  {
    var next := ClaimOne(db, queue, timeout).0;
    var i := First(db.rows, ClaimableIds(db, queue, timeout));
    assert i in ClaimableIds(next, queue, timeout);
    if n > 1 {
      NegativeLeaseNeverDrains(next, queue, timeout, n - 1, if k == 0 then 0 else k - 1);
    }
  }
}
