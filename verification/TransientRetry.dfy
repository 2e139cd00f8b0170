/** The retry loop around contended statements, its sleeps, and a redelivery run under it. */
module TransientRetry {
  import opened Common
  import opened SqlTable

  /** How one run of the operation ends. */
  datatype Attempt<+T> = Done(value: T) | Failed(transient: bool)

  function Pow2(n: nat): (p: real)
    ensures p >= 1.0
  {
    if n == 0 then 1.0 else 2.0 * Pow2(n - 1)
  }

  function Jittered(delay: real, draw: real): real { delay + delay * 0.1 * (draw * 2.0 - 1.0) }

  function Doubled(base: real, k: nat): real
    requires k >= 1
  {
    base * Pow2(k - 1)
  }

  /** The sleep after failed attempt `k`, for a draw in [0, 1). */
  function Sleep(base: real, k: nat, draw: real): int
    requires k >= 1
  {
    var slept := Round(Jittered(Doubled(base, k), draw));
    if slept < 0 then 0 else slept
  }

  function Total(sleeps: seq<int>): int {
    if sleeps == [] then 0 else Total(sleeps[..|sleeps| - 1]) + sleeps[|sleeps| - 1]
  }

  predicate Slept(base: real, draw: nat -> real, sleeps: seq<int>) {
    forall k :: 0 <= k < |sleeps| ==> sleeps[k] == Sleep(base, k + 1, draw(k + 1))
  }

  // ---- Sleeps ------------------------------------------------------------------------

  lemma Scaled(delay: real, u: real)
    requires 0.0 <= u < 1.0
    ensures delay >= 0.0 ==> 0.9 * delay <= Jittered(delay, u) <= 1.1 * delay
    ensures delay < 0.0 ==> Jittered(delay, u) < 0.0
  {
    var tenth := delay * 0.1;
    if delay >= 0.0 {
      Product(tenth, u);
      Product(tenth, 1.0 - u);
    } else {
      Product(-tenth, u);
      Product(-tenth, 1.0 - u);
    }
  }

  /** Each sleep is within half a millisecond of 10 % around the doubled base; a negative base never sleeps. */
  lemma SleepIsNear(base: real, k: nat, u: real)
    requires k >= 1 && 0.0 <= u < 1.0
    ensures Sleep(base, k, u) >= 0
    ensures base >= 0.0 ==>
      && 0.9 * (base * Pow2(k - 1)) - 0.5 <= Sleep(base, k, u) as real
      && Sleep(base, k, u) as real <= 1.1 * (base * Pow2(k - 1)) + 0.5
    ensures base < 0.0 ==> Sleep(base, k, u) == 0
  {
    var power := Pow2(k - 1);
    var delay := base * power;
    if base >= 0.0 { Product(base, power); } else { Product(-base, power - 1.0); }
    Scaled(delay, u);
    RoundIsNear(Jittered(delay, u));
    hide Pow2, Round, Jittered;
  }

  function TenthLess(delay: real): real { delay - delay * 0.1 }

  /** The middle draw gives the doubled base itself, the least one a tenth less, and a greater one never less. */
  lemma SleepSpans(base: real, k: nat, u: real, v: real)
    requires k >= 1 && base >= 0.0 && 0.0 <= u <= v < 1.0
    ensures var delay := Doubled(base, k);
      && Sleep(base, k, 0.5) == Round(delay) && Sleep(base, k, 0.0) == Round(TenthLess(delay))
      && Sleep(base, k, u) <= Sleep(base, k, v)
  {
    var delay := Doubled(base, k);
    Product(base, Pow2(k - 1));
    hide Pow2, Jittered, Round, TenthLess, Doubled;
    JitteredMoves(delay, 0.0, u);
    JitteredMoves(delay, u, v);
    RoundGrows(Jittered(delay, 0.0), Jittered(delay, u));
    RoundGrows(Jittered(delay, u), Jittered(delay, v));
    RoundGrows(0.0, Jittered(delay, 0.0));
    RoundGrows(0.0, delay);
    hide Sleep;
    SleepRounds(base, k, 0.5);
    SleepRounds(base, k, 0.0);
    SleepRounds(base, k, u);
    SleepRounds(base, k, v);
  }

  lemma SleepRounds(base: real, k: nat, u: real)
    requires k >= 1 && Round(Jittered(Doubled(base, k), u)) >= 0
    ensures Sleep(base, k, u) == Round(Jittered(Doubled(base, k), u))
  {
    hide Jittered, Round, Doubled;
  }

  lemma JitteredMoves(delay: real, u: real, v: real)
    requires delay >= 0.0 && u <= v
    ensures Jittered(delay, u) <= Jittered(delay, v)
    ensures Jittered(delay, 0.5) == delay && Jittered(delay, 0.0) == TenthLess(delay) >= 0.0
  {
    var tenth := delay * 0.1;
    Product(tenth, v - u);
    assert tenth * (v * 2.0 - 1.0) - tenth * (u * 2.0 - 1.0) == 2.0 * (tenth * (v - u));
  }

  lemma RoundGrows(x: real, y: real)
    requires x <= y
    ensures Round(x) <= Round(y) && Round(0.0) == 0
  {
  }

  lemma RoundIsNear(x: real)
    ensures x - 0.5 < Round(x) as real <= x + 0.5
    ensures x < 0.0 ==> Round(x) <= 0
  {
  }

  /** Together the first `n` sleeps stay below the geometric sum. */
  lemma {:induction false} TotalIsBounded(base: real, draw: nat -> real, sleeps: seq<int>)
    requires base >= 0.0 && Draws(draw)
    requires Slept(base, draw, sleeps)
    ensures Total(sleeps) as real <= 1.1 * (base * (Pow2(|sleeps|) - 1.0)) + |sleeps| as real / 2.0
  {
    if sleeps != [] {
      var n := |sleeps| - 1;
      TotalIsBounded(base, draw, sleeps[..n]);
      SleepIsNear(base, n + 1, draw(n + 1));
      assert base * (Pow2(n + 1) - 1.0) == base * (Pow2(n) - 1.0) + base * Pow2(n);
    }
  }

  // ---- The loop ----------------------------------------------------------------------

  predicate Retried<T>(a: Attempt<T>, k: int, attempts: int) { a.Failed? && a.transient && k < attempts }

  /** The operation: attempt `k`, run in some state, leaves a state and ends somehow. */
  type Operation<!S, T> = (S, nat) -> (S, Attempt<T>)

  /** The state after the first `n` attempts. */
  function After<S, T>(start: S, run: Operation<S, T>, n: nat): S {
    if n == 0 then start else run(After(start, run, n - 1), n).0
  }

  /** How attempt `k` ends when all before it were made. */
  function Ends<S, T>(start: S, run: Operation<S, T>, k: nat): Attempt<T>
    requires k >= 1
  {
    run(After(start, run, k - 1), k).1
  }

  /**
   * `withTransientRetry`. Each attempt acts on the state the one before it left; the result names
   * the attempt whose error is thrown. Every attempt but the last is a transient failure followed by
   * its sleep.
   */
  method WithTransientRetry<S, T>(start: S, run: Operation<S, T>, attempts: int, base: real, draw: nat -> real)
    returns (end: S, r: Result<T, nat>, runs: nat, sleeps: seq<int>)
    ensures 1 <= runs <= (if attempts > 1 then attempts else 1)
    ensures end == After(start, run, runs)
    ensures |sleeps| == runs - 1
    ensures forall k :: 1 <= k < runs ==> Retried(Ends(start, run, k), k, attempts)
    ensures Slept(base, draw, sleeps)
    ensures !Retried(Ends(start, run, runs), runs, attempts)
    ensures r == match Ends(start, run, runs) case Done(value) => Ok(value) case Failed(_) => Err(runs)
    ensures Draws(draw) && base >= 0.0 ==>
      Total(sleeps) as real <= 1.1 * (base * (Pow2(runs - 1) - 1.0)) + (runs - 1) as real / 2.0
  {
    var attempt: nat := 1;
    end, sleeps := start, [];
    while true
      invariant 1 <= attempt <= (if attempts > 1 then attempts else 1)
      invariant end == After(start, run, attempt - 1)
      invariant |sleeps| == attempt - 1
      invariant forall k :: 1 <= k < attempt ==> Retried(Ends(start, run, k), k, attempts)
      invariant Slept(base, draw, sleeps)
      decreases attempts - attempt
    {
      var (next, outcome) := run(end, attempt);
      assert outcome == Ends(start, run, attempt);
      end := next;
      match outcome
      case Done(value) =>
        if base >= 0.0 { Bounded(base, draw, sleeps); }
        return end, Ok(value), attempt, sleeps;
      case Failed(transient) =>
        if attempt >= attempts || !transient {
          if base >= 0.0 { Bounded(base, draw, sleeps); }
          return end, Err(attempt), attempt, sleeps;
        }
        sleeps := sleeps + [Sleep(base, attempt, draw(attempt))];
        assert Retried(Ends(start, run, attempt), attempt, attempts);
        attempt := attempt + 1;
    }
  }

  lemma Bounded(base: real, draw: nat -> real, sleeps: seq<int>)
    requires base >= 0.0
    requires Slept(base, draw, sleeps)
    ensures Draws(draw) ==> Total(sleeps) as real <= 1.1 * (base * (Pow2(|sleeps|) - 1.0)) + |sleeps| as real / 2.0
  {
    if Draws(draw) { TotalIsBounded(base, draw, sleeps); }
  }

  // ---- A redelivery under it ---------------------------------------------------------

  /**
   * How one transaction of a redelivery ends. A failure before COMMIT, or a COMMIT the server turns
   * down, rolls back; only contention, which always rolls back, is transient. A reply lost after
   * COMMIT is an error like any other.
   */
  datatype Ending = Committed | ReplyLost | RolledBack(transient: bool, inserted: bool)

  function OutcomeOf(ending: Ending): Attempt<()> {
    match ending
    case Committed => Done(())
    case ReplyLost => Failed(false)
    case RolledBack(transient, _) => Failed(transient)
  }

  /** What one transaction leaves: its INSERT and DELETE together, or the rows as they were and an id used up. */
  method Transact<B>(db: Db<B>, id: nat, queue: string, body: B, delay: real, ending: Ending)
    returns (after: Db<B>, outcome: Attempt<()>)
    ensures after == Transacted(db, id, queue, body, delay, ending) && outcome == OutcomeOf(ending)
  {
    after := db;
    if ending.RolledBack? && !ending.inserted {
      return after, Failed(ending.transient);
    }
    var copy := db.nextId;
    after := db.(nextId := copy + 1);
    var rows := db.rows[copy := Row(queue, body, db.clock + delay, None)];
    if ending.RolledBack? {
      return after, Failed(ending.transient);
    }
    rows := rows - {id};
    after := after.(rows := rows);
    outcome := if ending == Committed then Done(()) else Failed(false);
  }

  function Transacted<B>(db: Db<B>, id: nat, queue: string, body: B, delay: real, ending: Ending): Db<B> {
    match ending
    case RolledBack(_, inserted) => if inserted then db.(nextId := db.nextId + 1) else db
    case _ => Redelivered(db, id, queue, body, delay)
  }

  /** The transaction as an operation to retry; attempt `k` ends as `ending(k)`. */
  function Redelivery<B>(id: nat, queue: string, body: B, delay: real, ending: nat -> Ending): Operation<Db<B>, ()> {
    (db: Db<B>, k: nat) => (Transacted(db, id, queue, body, delay, ending(k)), OutcomeOf(ending(k)))
  }

  /** As long as every transaction rolls back, only ids are used up. */
  lemma {:induction false} RollbacksKeepRows<B>(
    db: Db<B>, id: nat, queue: string, body: B, delay: real, ending: nat -> Ending, n: nat)
    requires forall k :: 1 <= k <= n ==> ending(k).RolledBack?
    ensures var t := After(db, Redelivery(id, queue, body, delay, ending), n);
      t.rows == db.rows && t.clock == db.clock && t.nextId >= db.nextId
  {
    if n > 0 { RollbacksKeepRows(db, id, queue, body, delay, ending, n - 1); }
  }

  /** `after` has one row more than `db`, a copy under a new id, and one row less, the original. */
  ghost predicate MovedOnce<B>(db: Db<B>, after: Db<B>, id: nat, queue: string, body: B, delay: real) {
    exists copy: nat {:trigger after.rows[copy]} ::
      && db.nextId <= copy < after.nextId && copy != id
      && after.rows == db.rows[copy := Row(queue, body, db.clock + delay, None)] - {id}
      && after.rows.Keys == db.rows.Keys - {id} + {copy}
  }

  lemma LastCommits<B>(
    db: Db<B>, id: nat, queue: string, body: B, delay: real, ending: nat -> Ending, n: nat)
    requires id < db.nextId && n > 0 && !ending(n).RolledBack?
    requires forall k :: 1 <= k < n ==> ending(k).RolledBack?
    ensures MovedOnce(db, After(db, Redelivery(id, queue, body, delay, ending), n), id, queue, body, delay)
  {
    RollbacksKeepRows(db, id, queue, body, delay, ending, n - 1);
    var run := Redelivery(id, queue, body, delay, ending);
    var before, after := After(db, run, n - 1), After(db, run, n);
    var copy := before.nextId;
    assert after == Redelivered(before, id, queue, body, delay);
    hide After;
    assert copy in after.rows && after.rows[copy] == Row(queue, body, db.clock + delay, None);
    assert after.rows == db.rows[copy := Row(queue, body, db.clock + delay, None)] - {id};
    assert after.rows.Keys == db.rows.Keys - {id} + {copy};
  }

  /**
   * `redeliver` under the retry loop, for any pattern of endings: every attempt but the last rolled
   * back, so success adds exactly one copy under an id never used before and takes exactly the
   * original away. An error does the same when its COMMIT got through, and changes no row when not.
   */
  method Redeliver<B>(db: Db<B>, id: nat, queue: string, body: B, delay: real,
                      ending: nat -> Ending, draw: nat -> real)
    returns (after: Db<B>, r: Result<(), nat>, runs: nat)
    requires id < db.nextId
    ensures 1 <= runs <= 3 && after == After(db, Redelivery(id, queue, body, delay, ending), runs)
    ensures r.Ok? <==> ending(runs).Committed?
    ensures !ending(runs).RolledBack? ==> MovedOnce(db, after, id, queue, body, delay)
    ensures ending(runs).RolledBack? ==> after.rows == db.rows
  {
    var run, sleeps := Redelivery(id, queue, body, delay, ending), [];
    after, r, runs, sleeps := WithTransientRetry(db, run, 3, 100.0, draw);
    assert forall k :: k >= 1 ==> Ends(db, run, k) == OutcomeOf(ending(k));
    forall k | 1 <= k < runs ensures ending(k).RolledBack? {
      assert Retried(Ends(db, run, k), k, 3);
    }
    if ending(runs).RolledBack? {
      RollbacksKeepRows(db, id, queue, body, delay, ending, runs);
    } else {
      LastCommits(db, id, queue, body, delay, ending, runs);
    }
  }
}
