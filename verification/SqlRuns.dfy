/**
 * Any number of SQL transport instances over one table, as a machine. A step is what happens
 * between two awaits, or one committed transaction; an event that cannot happen leaves the
 * state unchanged, so a theorem about `Run` speaks of every interleaving, crash and lost reply.
 */
module SqlRuns {
  import opened Common
  import opened SqlTable

  datatype Instance = Instance(queue: string, timeout: real, inFlight: set<nat>, closing: bool)

  /** A statement an instance has issued, or a claimed row on its way to `get`. */
  datatype Work = Arriving | Deleting | Moving(delay: real)

  /** `held` when it stems from a delivery of its owner, not from an ack after `find`. */
  datatype Task = Task(owner: string, id: nat, work: Work, held: bool)

  datatype Claimed = Claimed(id: nat, timeout: real, stamp: real)

  /**
   * A record of the run: what each id ever inserted carried, the newest copy of each message,
   * the ids someone acked, and the claims in order.
   */
  datatype Log = Log(
    messages: nat, origin: map<nat, Content>, latest: map<nat, nat>, acked: set<nat>, claims: seq<Claimed>)

  datatype State = State(
    db: Db<Content>, instances: map<string, Instance>, tasks: map<nat, Task>, nextTask: nat, log: Log)

  datatype Event =
    | Tick(elapsed: real)
    | Start(name: string, queue: string, timeout: real)
    | Send(name: string, decodes: bool, delay: real)
    | Claim(name: string, id: nat, stamp: real)
    | Arrive(task: nat)
    | Ack(name: string, id: nat)
    | Reject(name: string, id: nat, delay: real)
    | Commit(task: nat)
    | Abandon(task: nat)
    | Close(name: string)
    | Crash(name: string)

  predicate Initial(s: State) {
    && s.db.rows == map[] && s.db.nextId == 0 && s.instances == map[] && s.tasks == map[]
    && s.log == Log(0, map[], map[], {}, [])
  }

  // ---- Steps -------------------------------------------------------------------------

  function Issue(s: State, task: Task): State {
    s.(tasks := s.tasks[s.nextTask := task], nextTask := s.nextTask + 1)
  }

  function Release(s: State, name: string, id: nat): State
    requires name in s.instances
  {
    s.(instances := s.instances[name := s.instances[name].(inFlight := s.instances[name].inFlight - {id})])
  }

  /** The newest copy of `c`'s message is about to be inserted. */
  function Recorded(s: State, c: Content): Log {
    s.log.(origin := s.log.origin[s.db.nextId := c], latest := s.log.latest[c.message := s.db.nextId])
  }

  function Sent(s: State, name: string, decodes: bool, delay: real): State {
    if name !in s.instances || s.instances[name].closing then s
    else
      var c := Content(s.log.messages, decodes);
      s.(db := Inserted(s.db, s.instances[name].queue, c, delay),
         log := Recorded(s, c).(messages := s.log.messages + 1))
  }

  /** `stamp` is the transaction's own `now()`, at or before the commit. */
  predicate CanClaim(s: State, name: string, id: nat, stamp: real) {
    && name in s.instances && id in s.db.rows && stamp <= s.db.clock
    && Claimable(s.db.rows[id], s.instances[name].queue, s.instances[name].timeout, stamp)
  }

  function ClaimStep(s: State, name: string, id: nat, stamp: real): State {
    if !CanClaim(s, name, id, stamp) then s
    else
      Issue(s.(db := Stamped(s.db, id, stamp),
               log := s.log.(claims := s.log.claims + [Claimed(id, s.instances[name].timeout, stamp)])),
            Task(name, id, Arriving, true))
  }

  /** `get` resumes with the row: a poison row is discarded, any other enters the registry. */
  function ArriveStep(s: State, n: nat): State {
    if n !in s.tasks || !s.tasks[n].work.Arriving? then s
    else
      var t := s.tasks[n];
      if t.owner !in s.instances || t.id !in s.log.origin then s
      else if !s.log.origin[t.id].decodes then s.(tasks := s.tasks[n := t.(work := Deleting)])
      else
        var i := s.instances[t.owner];
        s.(tasks := s.tasks - {n}, instances := s.instances[t.owner := i.(inFlight := i.inFlight + {t.id})])
  }

  /** Anyone may ack an id they have seen, delivered to them or found. */
  function AckStep(s: State, name: string, id: nat): State {
    if name !in s.instances || id !in s.log.origin then s
    else
      var held := id in s.instances[name].inFlight;
      Issue(Release(s, name, id).(log := s.log.(acked := s.log.acked + {id})), Task(name, id, Deleting, held))
  }

  function RejectStep(s: State, name: string, id: nat, delay: real): State {
    if name !in s.instances || id !in s.instances[name].inFlight then s
    else Issue(Release(s, name, id), Task(name, id, Moving(delay), true))
  }

  function Moved(s: State, id: nat, queue: string, delay: real): State
    requires id in s.log.origin
  {
    var c := Content(s.log.origin[id].message, true);
    s.(db := Redelivered(s.db, id, queue, c, delay), log := Recorded(s, c))
  }

  /**
   * The server commits, and that ends the work: a reply that is lost is an error no retry follows,
   * since only what rolled back is retried.
   */
  function CommitStep(s: State, n: nat): State {
    if n !in s.tasks || s.tasks[n].owner !in s.instances || s.tasks[n].id !in s.log.origin then s
    else
      var t := s.tasks[n];
      match t.work
      case Arriving => s
      case Deleting => s.(db := Deleted(s.db, t.id), tasks := s.tasks - {n})
      case Moving(delay) => Moved(s, t.id, s.instances[t.owner].queue, delay).(tasks := s.tasks - {n})
  }

  function Crashed(s: State, name: string): State {
    s.(instances := s.instances - {name}, tasks := map n | n in s.tasks && s.tasks[n].owner != name :: s.tasks[n])
  }

  function Step(s: State, ev: Event): State {
    match ev
    case Tick(d) => if d < 0.0 then s else s.(db := s.db.(clock := s.db.clock + d))
    case Start(name, queue, timeout) =>
      if name in s.instances then s
      else s.(instances := s.instances[name := Instance(queue, timeout, {}, false)])
    case Send(name, decodes, delay) => Sent(s, name, decodes, delay)
    case Claim(name, id, stamp) => ClaimStep(s, name, id, stamp)
    case Arrive(n) => ArriveStep(s, n)
    case Ack(name, id) => AckStep(s, name, id)
    case Reject(name, id, delay) => RejectStep(s, name, id, delay)
    case Commit(n) => CommitStep(s, n)
    case Abandon(n) => s.(tasks := s.tasks - {n})
    case Close(name) =>
      if name !in s.instances then s
      else s.(instances := s.instances[name := s.instances[name].(closing := true)])
    case Crash(name) => Crashed(s, name)
  }

  function Run(s: State, events: seq<Event>): State
    decreases |events|
  {
    if events == [] then s else Run(Step(s, events[0]), events[1..])
  }

  // ---- At least once -----------------------------------------------------------------

  ghost predicate BookMatches(s: State) {
    && (forall id: nat :: id in s.log.origin <==> id < s.db.nextId)
    && (forall m: nat :: m in s.log.latest <==> m < s.log.messages)
    && (forall id :: id in s.log.origin ==> s.log.origin[id].message < s.log.messages)
    && (forall m :: m in s.log.latest ==> s.log.latest[m] in s.log.origin && s.log.origin[s.log.latest[m]].message == m)
    && s.log.acked <= s.log.origin.Keys
  }

  ghost predicate RowsMatch(s: State) {
    forall id :: id in s.db.rows ==> id in s.log.origin && s.db.rows[id].body == s.log.origin[id]
  }

  ghost predicate WorkMatches(s: State) {
    && (forall n :: n in s.tasks ==>
          && n < s.nextTask && s.tasks[n].id in s.log.origin
          && (s.tasks[n].work.Deleting? ==> s.tasks[n].id in s.log.acked || !s.log.origin[s.tasks[n].id].decodes)
          && (s.tasks[n].work.Moving? ==> s.log.origin[s.tasks[n].id].decodes && s.tasks[n].held)
          && (s.tasks[n].work.Arriving? ==> s.tasks[n].held))
    && (forall i :: i in s.instances ==>
          forall id :: id in s.instances[i].inFlight ==> id in s.log.origin && s.log.origin[id].decodes)
  }

  /** The newest copy of a decodable message is a row, until that very copy is acked. */
  ghost predicate Kept(s: State, m: nat)
    requires m in s.log.latest && s.log.latest[m] in s.log.origin
  {
    s.log.origin[s.log.latest[m]].decodes ==> s.log.latest[m] in s.db.rows || s.log.latest[m] in s.log.acked
  }

  ghost predicate AllKept(s: State) {
    forall m :: m in s.log.latest && s.log.latest[m] in s.log.origin ==> Kept(s, m)
  }

  ghost predicate Sound(s: State) { BookMatches(s) && RowsMatch(s) && WorkMatches(s) && AllKept(s) }

  lemma SendKeeps(s: State, name: string, decodes: bool, delay: real)
    requires Sound(s)
    ensures Sound(Sent(s, name, decodes, delay))
  {
    var t := Sent(s, name, decodes, delay);
    forall m | m in t.log.latest && t.log.latest[m] in t.log.origin ensures Kept(t, m) {
      if m in s.log.latest { assert Kept(s, m); }
    }
  }

  lemma ClaimKeeps(s: State, name: string, id: nat, stamp: real)
    requires Sound(s)
    ensures Sound(ClaimStep(s, name, id, stamp))
  {
    var t := ClaimStep(s, name, id, stamp);
    forall m | m in t.log.latest && t.log.latest[m] in t.log.origin ensures Kept(t, m) {
      assert Kept(s, m);
    }
  }

  lemma ArriveKeeps(s: State, n: nat)
    requires Sound(s)
    ensures Sound(ArriveStep(s, n))
  {
    var t := ArriveStep(s, n);
    forall m | m in t.log.latest && t.log.latest[m] in t.log.origin ensures Kept(t, m) {
      assert Kept(s, m);
    }
  }

  lemma AckKeeps(s: State, name: string, id: nat)
    requires Sound(s)
    ensures Sound(AckStep(s, name, id))
  {
    var t := AckStep(s, name, id);
    assert WorkMatches(t) by { hide AllKept, Kept; }
    forall m | m in s.log.latest && s.log.latest[m] in s.log.origin ensures Kept(t, m) {
      assert Kept(s, m);
    }
    hide WorkMatches;
  }

  lemma RejectKeeps(s: State, name: string, id: nat, delay: real)
    requires Sound(s)
    ensures Sound(RejectStep(s, name, id, delay))
  {
    var t := RejectStep(s, name, id, delay);
    assert WorkMatches(t) by { hide AllKept, Kept; }
    forall m | m in s.log.latest && s.log.latest[m] in s.log.origin ensures Kept(t, m) {
      assert Kept(s, m);
    }
    hide WorkMatches;
  }

  lemma MovedKeepsBooks(s: State, id: nat, queue: string, delay: real)
    requires Sound(s) && id in s.log.origin && s.log.origin[id].decodes
    ensures var t := Moved(s, id, queue, delay); BookMatches(t) && RowsMatch(t)
  {
    hide Kept, WorkMatches;
  }

  lemma MovedKeeps(s: State, id: nat, queue: string, delay: real)
    requires Sound(s) && id in s.log.origin && s.log.origin[id].decodes
    ensures Sound(Moved(s, id, queue, delay))
  {
    MovedKeepsBooks(s, id, queue, delay);
    var t := Moved(s, id, queue, delay);
    forall m | m in t.log.latest && t.log.latest[m] in t.log.origin ensures Kept(t, m) {
      assert m in s.log.latest ==> Kept(s, m);
    }
    assert WorkMatches(t) by { hide RowsMatch, Kept; }
  }

  lemma DeletedKeeps(s: State, id: nat)
    requires Sound(s) && id in s.log.origin && (id in s.log.acked || !s.log.origin[id].decodes)
    ensures Sound(s.(db := Deleted(s.db, id)))
  {
    var t := s.(db := Deleted(s.db, id));
    forall m | m in t.log.latest && t.log.latest[m] in t.log.origin ensures Kept(t, m) {
      assert Kept(s, m);
    }
  }

  lemma FewerTasksKeep(s: State, n: nat)
    requires Sound(s)
    ensures Sound(s.(tasks := s.tasks - {n}))
  {
    var t := s.(tasks := s.tasks - {n});
    forall m | m in t.log.latest && t.log.latest[m] in t.log.origin ensures Kept(t, m) {
      assert Kept(s, m);
    }
  }

  lemma CommitKeeps(s: State, n: nat)
    requires Sound(s)
    ensures Sound(CommitStep(s, n))
  {
    if n in s.tasks && s.tasks[n].owner in s.instances && s.tasks[n].id in s.log.origin {
      var t := s.tasks[n];
      hide BookMatches, RowsMatch, AllKept;
      match t.work
      case Arriving =>
      case Deleting =>
        DeletedKeeps(s, t.id);
        FewerTasksKeep(s.(db := Deleted(s.db, t.id)), n);
        hide Sound, Deleted;
      case Moving(delay) =>
        MovedKeeps(s, t.id, s.instances[t.owner].queue, delay);
        FewerTasksKeep(Moved(s, t.id, s.instances[t.owner].queue, delay), n);
        assert Moved(s, t.id, s.instances[t.owner].queue, delay).tasks == s.tasks;
        hide Sound, Moved;
    }
  }

  lemma CrashKeeps(s: State, name: string)
    requires Sound(s)
    ensures Sound(Crashed(s, name))
  {
    var t := Crashed(s, name);
    forall m | m in t.log.latest && t.log.latest[m] in t.log.origin ensures Kept(t, m) {
      assert Kept(s, m);
    }
  }

  lemma OtherKeeps(s: State, ev: Event)
    requires Sound(s) && (ev.Tick? || ev.Start? || ev.Abandon? || ev.Close?)
    ensures Sound(Step(s, ev))
  {
    var t := Step(s, ev);
    forall m | m in t.log.latest && t.log.latest[m] in t.log.origin ensures Kept(t, m) {
      assert Kept(s, m);
    }
  }

  lemma StepKeeps(s: State, ev: Event)
    requires Sound(s)
    ensures Sound(Step(s, ev))
  {
    hide Sound, Sent, ClaimStep, ArriveStep, AckStep, RejectStep, CommitStep, Crashed;
    match ev
    case Send(name, decodes, delay) => SendKeeps(s, name, decodes, delay);
    case Claim(name, id, stamp) => ClaimKeeps(s, name, id, stamp);
    case Arrive(n) => ArriveKeeps(s, n);
    case Ack(name, id) => AckKeeps(s, name, id);
    case Reject(name, id, delay) => RejectKeeps(s, name, id, delay);
    case Commit(n) => CommitKeeps(s, n);
    case Crash(name) => CrashKeeps(s, name);
    case _ => OtherKeeps(s, ev);
  }

  lemma {:induction false} RunKeeps(s: State, events: seq<Event>)
    requires Sound(s)
    ensures Sound(Run(s, events))
    decreases |events|
  {
    if events != [] {
      StepKeeps(s, events[0]);
      hide Sound, Step;
      RunKeeps(Step(s, events[0]), events[1..]);
    }
  }

  /**
   * At-least-once: after any run, every message sent as decodable has a newest copy, and that
   * copy is a row of the table unless that very copy was acked.
   */
  lemma AtLeastOnce(s: State, events: seq<Event>, m: nat)
    requires Initial(s)
    requires m < Run(s, events).log.messages
    ensures var t := Run(s, events);
      && m in t.log.latest && t.log.latest[m] in t.log.origin
      && t.log.origin[t.log.latest[m]].message == m
      && (t.log.origin[t.log.latest[m]].decodes ==>
            || t.log.latest[m] in t.log.acked
            || (t.log.latest[m] in t.db.rows && t.db.rows[t.log.latest[m]].body == Content(m, true)))
  {
    RunKeeps(s, events);
    var t := Run(s, events);
    hide Run;
    assert Kept(t, m);
  }

  /** Whatever happened to it before, a row is delivered again once it is due and its lease is over. */
  lemma RowComesBack(s: State, name: string, id: nat, wait: real)
    requires name in s.instances && id in s.db.rows && s.db.rows[id].queue == s.instances[name].queue
    requires wait >= 0.0 && wait >= s.db.rows[id].availableAt - s.db.clock
    requires s.db.rows[id].deliveredAt.Some? ==>
      wait > s.db.rows[id].deliveredAt.value + s.instances[name].timeout - s.db.clock
    ensures var t := Run(s, [Tick(wait), Claim(name, id, s.db.clock + wait)]);
      s.nextTask in t.tasks && t.tasks[s.nextTask] == Task(name, id, Arriving, true)
  {
    var claim := Claim(name, id, s.db.clock + wait);
    var u := s.(db := s.db.(clock := s.db.clock + wait));
    RunOfTwo(s, Tick(wait), claim);
    assert CanClaim(u, name, id, u.db.clock);
    assert Step(s, Tick(wait)) == u;
    hide Run, CanClaim, Sent, ArriveStep, AckStep, RejectStep, CommitStep, Crashed;
  }

  lemma RunOfTwo(s: State, a: Event, b: Event)
    ensures Run(s, [a, b]) == Step(Step(s, a), b)
  {
    hide Step;
    assert [a, b][1..] == [b] && [b][1..] == [];
    assert Run(Step(s, a), [b]) == Run(Step(Step(s, a), b), []);
  }

  // ---- Settled for good --------------------------------------------------------------

  /** Ids are never reused: a row that is gone stays gone, and nobody claims it. */
  lemma {:induction false} GoneForGood(s: State, events: seq<Event>, id: nat)
    requires id < s.db.nextId && id !in s.db.rows
    ensures var t := Run(s, events);
      && id < t.db.nextId && id !in t.db.rows
      && forall name, stamp :: Step(t, Claim(name, id, stamp)) == t
    decreases |events|
  {
    if events != [] {
      StaysGone(s, events[0], id);
      hide Step;
      GoneForGood(Step(s, events[0]), events[1..], id);
    }
  }

  lemma StaysGone(s: State, ev: Event, id: nat)
    requires id < s.db.nextId && id !in s.db.rows
    ensures id < Step(s, ev).db.nextId && id !in Step(s, ev).db.rows
  {
  }

  /** The delete of an ack, or of a discarded row, takes out exactly its row. */
  lemma DeleteCommits(s: State, n: nat)
    requires Sound(s) && n in s.tasks && s.tasks[n].owner in s.instances && s.tasks[n].work.Deleting?
    ensures var t := Step(s, Commit(n));
      t.db == s.db.(rows := s.db.rows - {s.tasks[n].id}) && t.tasks == s.tasks - {n} && t.log == s.log
  {
  }

  /** A committed redelivery leaves exactly the new copy, due after its delay, in place of the one rejected. */
  lemma MoveCommits(s: State, n: nat)
    requires Sound(s) && n in s.tasks && s.tasks[n].owner in s.instances && s.tasks[n].work.Moving?
    ensures s.tasks[n].id in s.log.origin
    ensures var t, id := Step(s, Commit(n)), s.tasks[n].id;
      var copy := Content(s.log.origin[id].message, true);
      && t.tasks == s.tasks - {n} && s.db.nextId !in s.log.origin
      && t.db.rows
           == s.db.rows[s.db.nextId :=
                Row(s.instances[s.tasks[n].owner].queue, copy, s.db.clock + s.tasks[n].work.delay, None)] - {id}
      && s.db.nextId in t.db.rows && id !in t.db.rows
      && t.log.latest == s.log.latest[copy.message := s.db.nextId]
  {
  }

  /** The work of a settle waits, whatever else happens, until it commits, is abandoned, or its owner dies. */
  lemma {:induction false} WorkWaits(s: State, events: seq<Event>, n: nat)
    requires Sound(s) && n in s.tasks && !s.tasks[n].work.Arriving? && s.tasks[n].owner in s.instances
    requires Commit(n) !in events && Abandon(n) !in events && Crash(s.tasks[n].owner) !in events
    ensures var t := Run(s, events);
      n in t.tasks && t.tasks[n] == s.tasks[n] && s.tasks[n].owner in t.instances
      && t.instances[s.tasks[n].owner].queue == s.instances[s.tasks[n].owner].queue
    decreases |events|
  {
    if events != [] {
      StepKeeps(s, events[0]);
      WorkStays(s, events[0], n);
      hide Sound, Step;
      WorkWaits(Step(s, events[0]), events[1..], n);
    }
  }

  lemma WorkStays(s: State, ev: Event, n: nat)
    requires Sound(s) && n in s.tasks && !s.tasks[n].work.Arriving? && s.tasks[n].owner in s.instances
    requires ev != Commit(n) && ev != Abandon(n) && ev != Crash(s.tasks[n].owner)
    ensures var t := Step(s, ev);
      n in t.tasks && t.tasks[n] == s.tasks[n] && s.tasks[n].owner in t.instances
      && t.instances[s.tasks[n].owner].queue == s.instances[s.tasks[n].owner].queue
  {
    hide BookMatches, RowsMatch, AllKept, Claimable, Stamped, Redelivered, Deleted, Inserted;
  }

  /**
   * An ack whose delete commits, however much happens in between, has taken its row out for good:
   * in no continuation is it a row again, or claimed by anyone.
   */
  lemma AckedIsGone(s: State, name: string, id: nat, between: seq<Event>, after: seq<Event>)
    requires Sound(s) && name in s.instances && id in s.log.origin
    requires Commit(s.nextTask) !in between && Abandon(s.nextTask) !in between && Crash(name) !in between
    ensures var t := Run(Step(s, Ack(name, id)), between);
      var u := Step(t, Commit(s.nextTask));
      && id in t.log.acked && u.db.rows == t.db.rows - {id} && id !in Run(u, after).db.rows
      && forall other, stamp :: Step(Run(u, after), Claim(other, id, stamp)) == Run(u, after)
  {
    var a, n := Step(s, Ack(name, id)), s.nextTask;
    StepKeeps(s, Ack(name, id));
    assert n in a.tasks && a.tasks[n].id == id && a.tasks[n].owner == name && a.tasks[n].work.Deleting?;
    assert id in a.log.acked && id < a.db.nextId;
    hide *;
    RunKeeps(a, between);
    WorkWaits(a, between, n);
    OnlyGrow(a, between);
    var t := Run(a, between);
    DeleteCommits(t, n);
    GoneForGood(Step(t, Commit(n)), after, id);
  }

  lemma {:induction false} OnlyGrow(s: State, events: seq<Event>)
    ensures s.log.acked <= Run(s, events).log.acked && s.db.nextId <= Run(s, events).db.nextId
    decreases |events|
  {
    if events != [] {
      OnlyGrow(Step(s, events[0]), events[1..]);
    }
  }

  /** A reject whose redelivery commits has replaced its row by the copy, for good. */
  lemma RejectedIsGone(s: State, name: string, id: nat, delay: real, between: seq<Event>, after: seq<Event>)
    requires Sound(s) && name in s.instances && id in s.instances[name].inFlight
    requires Commit(s.nextTask) !in between && Abandon(s.nextTask) !in between && Crash(name) !in between
    ensures var t := Run(Step(s, Reject(name, id, delay)), between);
      var u, queue := Step(t, Commit(s.nextTask)), s.instances[name].queue;
      && id in t.log.origin
      && u.db.rows
           == t.db.rows[t.db.nextId := Row(queue, Content(t.log.origin[id].message, true), t.db.clock + delay, None)]
              - {id}
      && id !in Run(u, after).db.rows
      && forall other, stamp :: Step(Run(u, after), Claim(other, id, stamp)) == Run(u, after)
  {
    var a, n := Step(s, Reject(name, id, delay)), s.nextTask;
    StepKeeps(s, Reject(name, id, delay));
    assert n in a.tasks && a.tasks[n] == Task(name, id, Moving(delay), true) && name in a.instances;
    assert a.instances[name].queue == s.instances[name].queue && id < a.db.nextId;
    hide *;
    RunKeeps(a, between);
    WorkWaits(a, between, n);
    OnlyGrow(a, between);
    var t := Run(a, between);
    MoveCommits(t, n);
    OnlyGrow(t, [Commit(n)]);
    RunOne(t, Commit(n));
    GoneForGood(Step(t, Commit(n)), after, id);
  }

  lemma RunOne(s: State, ev: Event)
    ensures Run(s, [ev]) == Step(s, ev)
  {
    hide Step;
    assert [ev][1..] == [];
    assert Run(Step(s, ev), []) == Step(s, ev);
  }

  // ---- Deliveries --------------------------------------------------------------------

  /**
   * A claimed row that decodes is delivered to its claimer, and nothing else changes but its stamp;
   * one that does not is deleted.
   */
  lemma ClaimedIsDelivered(s: State, name: string, id: nat, stamp: real)
    requires Sound(s) && CanClaim(s, name, id, stamp)
    ensures id in s.log.origin
    ensures var t := Step(Step(s, Claim(name, id, stamp)), Arrive(s.nextTask));
      && t.db == Stamped(s.db, id, stamp)
      && if s.log.origin[id].decodes then
           && t.tasks == s.tasks
           && t.instances == s.instances[name :=
                s.instances[name].(inFlight := s.instances[name].inFlight + {id})]
         else
           && t.instances == s.instances
           && Step(t, Commit(s.nextTask)).db.rows == s.db.rows - {id} && Step(t, Commit(s.nextTask)).tasks == s.tasks
  {
    var n := s.nextTask;
    var a := Step(s, Claim(name, id, stamp));
    assert n !in s.tasks && a.tasks == s.tasks[n := Task(name, id, Arriving, true)] && a.instances == s.instances;
    assert s.tasks[n := Task(name, id, Arriving, true)] - {n} == s.tasks;
    assert id in s.log.origin && a.log.origin == s.log.origin;
    if !s.log.origin[id].decodes {
      var t := Step(a, Arrive(n));
      assert t.tasks == s.tasks[n := Task(name, id, Deleting, true)];
      assert s.tasks[n := Task(name, id, Deleting, true)] - {n} == s.tasks;
      assert s.db.rows[id := s.db.rows[id].(deliveredAt := Some(stamp))] - {id} == s.db.rows - {id};
    }
  }

  /** Once its transport is closed, no send through it does anything. */
  lemma ClosedRefuses(s: State, name: string, events: seq<Event>, decodes: bool, delay: real)
    requires name in s.instances && Crash(name) !in events
    ensures var t := Run(Step(s, Close(name)), events); Step(t, Send(name, decodes, delay)) == t
  {
    StaysClosed(Step(s, Close(name)), name, events);
    hide Run;
  }

  lemma {:induction false} StaysClosed(s: State, name: string, events: seq<Event>)
    requires name in s.instances && s.instances[name].closing && Crash(name) !in events
    ensures var t := Run(s, events); name in t.instances && t.instances[name].closing
    decreases |events|
  {
    if events != [] {
      StepStaysClosed(s, name, events[0]);
      hide Step;
      StaysClosed(Step(s, events[0]), name, events[1..]);
    }
  }

  lemma StepStaysClosed(s: State, name: string, ev: Event)
    requires name in s.instances && s.instances[name].closing && ev != Crash(name)
    ensures var t := Step(s, ev); name in t.instances && t.instances[name].closing
  {
    hide Claimable, Stamped, Redelivered, Deleted, Inserted;
  }

  /** A send through an open transport is one row more: on its queue, undelivered, due after its delay. */
  lemma SentIsStored(s: State, name: string, decodes: bool, delay: real)
    requires Sound(s) && name in s.instances && !s.instances[name].closing
    ensures var t, c := Step(s, Send(name, decodes, delay)), Content(s.log.messages, decodes);
      && s.db.nextId !in s.db.rows
      && t.db.rows == s.db.rows[s.db.nextId := Row(s.instances[name].queue, c, s.db.clock + delay, None)]
      && t.log.latest == s.log.latest[s.log.messages := s.db.nextId] && t.log.acked == s.log.acked
      && s.log.messages !in s.log.latest
  {
  }

  /** The rest of a dead process's settles never reaches the table, not even if its name starts again. */
  lemma DeadIsSilent(s: State, name: string, n: nat, queue: string, timeout: real)
    requires n in s.tasks && s.tasks[n].owner == name
    ensures var t := Step(Step(s, Crash(name)), Start(name, queue, timeout));
      name in t.instances && t.instances[name] == Instance(queue, timeout, {}, false)
      && t.db == s.db && Step(t, Commit(n)) == t && Step(t, Arrive(n)) == t
  {
  }

  /** When every lease of the row is over, and it is due. */
  function RipeAt(row: Row<Content>, timeout: real): real {
    match row.deliveredAt
    case None => row.availableAt
    case Some(at) => if at + timeout + 1.0 > row.availableAt then at + timeout + 1.0 else row.availableAt
  }

  /** From every reachable state a new instance can claim any row of its queue in time, and handle it. */
  lemma RowCanBeHandled(s: State, name: string, id: nat, timeout: real)
    requires Sound(s) && name !in s.instances && id in s.db.rows && s.db.rows[id].body.decodes
    ensures var row, n := s.db.rows[id], s.nextTask;
      var wait := if RipeAt(row, timeout) > s.db.clock then RipeAt(row, timeout) - s.db.clock else 0.0;
      var ready := Step(Step(s, Start(name, row.queue, timeout)), Tick(wait));
      var delivered := Step(Step(ready, Claim(name, id, ready.db.clock)), Arrive(n));
      var acked := Step(delivered, Ack(name, id));
      var done := Step(acked, Commit(n + 1));
      && name in delivered.instances && id in delivered.instances[name].inFlight
      && id in acked.log.acked && done.db.rows == s.db.rows - {id}
  {
    hide *;
    var row := s.db.rows[id];
    var wait := if RipeAt(row, timeout) > s.db.clock then RipeAt(row, timeout) - s.db.clock else 0.0;
    Ripens(s, name, id, timeout, wait);
    HandledOnceClaimed(Step(Step(s, Start(name, row.queue, timeout)), Tick(wait)), name, id, s.db.clock + wait);
  }

  lemma Ripens(s: State, name: string, id: nat, timeout: real, wait: real)
    requires Sound(s) && name !in s.instances && id in s.db.rows && wait >= 0.0
    requires s.db.clock + wait >= RipeAt(s.db.rows[id], timeout)
    ensures var row := s.db.rows[id];
      var t := Step(Step(s, Start(name, row.queue, timeout)), Tick(wait));
      && Sound(t) && t.db.rows == s.db.rows && t.nextTask == s.nextTask && t.db.clock == s.db.clock + wait
      && t.instances == s.instances[name := Instance(row.queue, timeout, {}, false)]
      && CanClaim(t, name, id, t.db.clock)
      && id in t.log.origin && t.log.origin[id] == row.body
  {
    var started := Step(s, Start(name, s.db.rows[id].queue, timeout));
    StepKeeps(s, Start(name, s.db.rows[id].queue, timeout));
    StepKeeps(started, Tick(wait));
    hide BookMatches, WorkMatches, AllKept;
  }

  /** A claimed row is delivered, acked and deleted. */
  lemma HandledOnceClaimed(s: State, name: string, id: nat, stamp: real)
    requires Sound(s) && CanClaim(s, name, id, stamp) && id in s.log.origin && s.log.origin[id].decodes
    ensures name in s.instances && id in s.db.rows
    ensures var n := s.nextTask;
      var delivered := Step(Step(s, Claim(name, id, stamp)), Arrive(n));
      var acked := Step(delivered, Ack(name, id));
      && name in delivered.instances && id in delivered.instances[name].inFlight
      && id in acked.log.acked && Step(acked, Commit(n + 1)).db.rows == s.db.rows - {id}
  {
    var claimed := Step(s, Claim(name, id, stamp));
    var delivered := Step(claimed, Arrive(s.nextTask));
    ClaimNames(s, name, id, stamp);
    hide *;
    ClaimedIsDelivered(s, name, id, stamp);
    StepKeeps(s, Claim(name, id, stamp));
    StepKeeps(claimed, Arrive(s.nextTask));
    AckDeletes(delivered, name, id);
  }

  lemma ClaimNames(s: State, name: string, id: nat, stamp: real)
    requires CanClaim(s, name, id, stamp)
    ensures name in s.instances && id in s.db.rows
    ensures var t := Step(Step(s, Claim(name, id, stamp)), Arrive(s.nextTask));
      t.nextTask == s.nextTask + 1 && t.log.origin == s.log.origin
    ensures Stamped(s.db, id, stamp).rows - {id} == s.db.rows - {id}
  {
    hide Claimable;
  }

  lemma AckDeletes(s: State, name: string, id: nat)
    requires Sound(s) && name in s.instances && id in s.log.origin
    ensures var t := Step(s, Ack(name, id));
      id in t.log.acked && Step(t, Commit(s.nextTask)).db.rows == s.db.rows - {id}
  {
    var t := Step(s, Ack(name, id));
    StepKeeps(s, Ack(name, id));
    assert s.nextTask in t.tasks && t.tasks[s.nextTask].work.Deleting? && t.tasks[s.nextTask].owner == name;
    assert t.tasks[s.nextTask].id == id && t.db == s.db && name in t.instances && id in t.log.acked;
    hide *;
    DeleteCommits(t, s.nextTask);
  }
}
