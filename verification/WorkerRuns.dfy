/**
 * Any number of workers over in-memory transports, as a machine. A step is a stretch of code
 * between two awaits; an event that cannot happen leaves the state unchanged, so a theorem
 * about `Run` speaks of every sequence of events.
 */
module WorkerRuns {
  import opened Common
  import opened Envelopes
  import opened InMemory
  import opened Pipeline

  /** A delivery: the transport's alias and the id it gave the entry. */
  type Key = (string, string)

  /** A delivery being worked on; `fate` is set once its dispatch has ended. */
  datatype Job = Job(envelope: Envelope, fate: Option<Fate>)

  type Jobs = map<Key, Job>

  /**
   * The handler failures of one copy, and its other throws: failures within the retry budget
   * (`early`), failures past it whose dead-lettering was refused (`refused`) or went through
   * (`sunk`), and throws without a handler failure (`thrown`).
   */
  datatype Tally = Tally(early: nat, refused: nat, sunk: nat, thrown: nat)

  /**
   * A record of the dispatched copies: which copy each entry carries (`home`), the entry a
   * copy was last put in (`latest`), how it ended, the envelope it was first received as and
   * from which transport.
   */
  datatype Ledger = Ledger(
    copies: nat, home: map<Key, nat>, latest: map<nat, Key>, handled: set<nat>, dropped: set<nat>,
    first: map<nat, Envelope>, origin: map<nat, string>, tally: map<nat, Tally>)

  datatype State = State(mail: World, clock: real, jobs: Jobs, log: Ledger)

  datatype Event =
    | Tick(elapsed: real)
    | Deposit(alias: string, e: Envelope)
    | Poll(alias: string)
    | Finish(key: Key, outcome: Outcome, wait: real)
    | Settle(key: Key)
    | CloseTransport(alias: string, caller: nat)

  function NextKey(mail: World, alias: string): Key {
    (alias, if alias in mail then Decimal(mail[alias].nextId) else "")
  }

  function Put(log: Ledger, key: Key, c: nat): Ledger {
    log.(home := log.home[key := c], latest := log.latest[c := key])
  }

  function Opened(log: Ledger, key: Key, received: Envelope): Ledger {
    var c := log.copies;
    Put(log.(copies := c + 1, origin := log.origin[c := key.0], first := log.first[c := received],
             tally := log.tally[c := Tally(0, 0, 0, 0)]), key, c)
  }

  /** A fresh message reaches a transport. */
  function Deposited(s: State, alias: string, e: Envelope): State {
    if alias !in s.mail || s.mail[alias].closing || e.Last(SentToFailureTransportStamp).Some? then s
    else
      var m, key := s.mail[alias], NextKey(s.mail, alias);
      s.(mail := s.mail[alias := Sent(m, e, s.clock)],
         log := Opened(s.log, key, Delivered(m, Entry(key.1, e, s.clock + e.DelayMs()))))
  }

  /** A worker polls: the loop of `get` up to its next yield or sleep. */
  function Polled(s: State, alias: string): State {
    if alias !in s.mail || s.mail[alias].closing then s
    else match FirstDue(s.mail[alias].queue, s.clock)
      case None => s
      case Some(i) =>
        var m := s.mail[alias];
        s.(mail := s.mail[alias := Taken(m, s.clock)],
           jobs := s.jobs[(alias, m.queue[i].id) := Job(Delivered(m, m.queue[i]), None)])
  }

  function Counted(t: Tally, early: bool, failed: bool, kept: bool): Tally {
    if early then t.(early := t.early + 1)
    else if failed then if kept then t.(refused := t.refused + 1) else t.(sunk := t.sunk + 1)
    else if kept then t.(thrown := t.thrown + 1)
    else t
  }

  /** The ledger's view of the end of a dispatch. */
  function Judged(log: Ledger, to: Key, c: nat, fate: Fate): Ledger {
    match fate
    case Done => log.(handled := log.handled + {c})
    case Discarded => log.(dropped := log.dropped + {c})
    case Kept => log
    case Moved(_) => Put(log, to, c)
  }

  predicate FailsEarly(policy: Policy, e: Envelope, outcome: Outcome) {
    outcome.Failed? && policy.retryable(Inner(policy, e))
  }

  predicate CanFinish(s: State, key: Key) {
    key in s.jobs && key in s.log.home && s.log.home[key] in s.log.tally && s.jobs[key].fate.None?
  }

  /** The pipeline of one delivery runs to its end. */
  function Finished(policy: Policy, s: State, key: Key, outcome: Outcome, wait: real): State {
    if !CanFinish(s, key) then s
    else
      var e, c := s.jobs[key].envelope, s.log.home[key];
      var (mail, fate) := Dispatch(policy, s.mail, e, outcome, wait, s.clock);
      var tally := Counted(s.log.tally[c], FailsEarly(policy, e, outcome), outcome.Failed?, fate.Kept?);
      var to := if fate.Moved? then NextKey(s.mail, fate.alias) else key;
      s.(mail := mail, jobs := s.jobs[key := Job(e, Some(fate))],
         log := Judged(s.log.(tally := s.log.tally[c := tally]), to, c, fate))
  }

  /** The worker's ack or reject of a finished dispatch. */
  function WorkerSettled(s: State, key: Key): State {
    if key !in s.jobs || key.0 !in s.mail || key !in s.log.home then s
    else
      var job, m := s.jobs[key], s.mail[key.0];
      if job.fate.None? || job.envelope.MessageId().None? then s
      else
        var id := job.envelope.MessageId().value;
        if job.fate.value.Kept?
        then s.(mail := s.mail[key.0 := Rejected(m, job.envelope, id, s.clock)], jobs := s.jobs - {key},
                log := Put(s.log, NextKey(s.mail, key.0), s.log.home[key]))
        else s.(mail := s.mail[key.0 := Acked(m, id)], jobs := s.jobs - {key})
  }

  function Step(policy: Policy, s: State, ev: Event): State {
    match ev
    case Tick(d) => if d < 0.0 then s else s.(clock := s.clock + d)
    case Deposit(alias, e) => Deposited(s, alias, e)
    case Poll(alias) => Polled(s, alias)
    case Finish(key, outcome, wait) => Finished(policy, s, key, outcome, wait)
    case Settle(key) => WorkerSettled(s, key)
    case CloseTransport(alias, caller) =>
      if alias !in s.mail then s else s.(mail := s.mail[alias := Closed(s.mail[alias], caller)])
  }

  function Run(policy: Policy, s: State, events: seq<Event>): State
    decreases |events|
  {
    if events == [] then s else Run(policy, Step(policy, s, events[0]), events[1..])
  }

  const EMPTY_LEDGER := Ledger(0, map[], map[], {}, {}, map[], map[], map[])

  /** Fresh transports, each named like its alias. */
  ghost predicate Initial(s: State) {
    && (forall a :: a in s.mail ==> s.mail[a] == Mailbox(a, [], map[], 0, false, []))
    && s.jobs == map[] && s.log == EMPTY_LEDGER
  }

  // ---- Transports and jobs agree -----------------------------------------------------

  /** Each transport is consistent and named like its alias. */
  ghost predicate Sound(mail: World) { forall a :: a in mail ==> mail[a].name == a && Consistent(mail[a]) }

  ghost predicate JobFits(mail: World, k: Key, job: Job) {
    && k.0 in mail && k.1 in mail[k.0].inFlight && mail[k.0].inFlight[k.1].id == k.1
    && job.envelope == Delivered(mail[k.0], mail[k.0].inFlight[k.1])
  }

  /** Every job is an in-flight entry of its transport. */
  ghost predicate Fitting(mail: World, jobs: Jobs) { forall k :: k in jobs ==> JobFits(mail, k, jobs[k]) }

  /** Every delivery and every copy is on record. */
  ghost predicate Recorded(jobs: Jobs, log: Ledger) {
    && (forall k :: k in jobs ==> k in log.home && log.home[k] < log.copies)
    && (forall c: nat :: c < log.copies ==> c in log.tally && c in log.first && c in log.origin)
  }

  /** The envelope a failed delivery is passed on as. */
  function MovedEnvelope(policy: Policy, e: Envelope, outcome: Outcome, wait: real): Envelope
    requires outcome.Failed?
  {
    var seen := Inner(policy, e);
    if policy.retryable(seen) then Retried(seen, wait) else DeadLettered(seen, outcome, OriginOf(seen))
  }

  /** The transport the retry middleware takes the message to come from. */
  function OriginOf(seen: Envelope): string {
    match seen.Last(ReceivedStamp) case None => "" case Some(r) => TextOf(r, "transportName")
  }

  /** What a dispatch leaves behind: nothing, or one new entry where the copy moved. */
  lemma DispatchShape(policy: Policy, mail: World, e: Envelope, outcome: Outcome, wait: real, now: real)
    ensures var (after, fate) := Dispatch(policy, mail, e, outcome, wait, now);
      && (fate.Done? <==> outcome.Handled?) && (outcome.Infrastructure? ==> fate.Kept?)
      && (fate.Discarded? ==> outcome.Failed?)
      && (fate.Discarded? ==> !FailsEarly(policy, e, outcome))
      && if fate.Moved? then
           && outcome.Failed? && fate.alias in mail && !mail[fate.alias].closing
           && (if FailsEarly(policy, e, outcome) then fate.alias == OriginOf(Inner(policy, e))
               else policy.failure == Some(fate.alias))
           && after == mail[fate.alias := Sent(mail[fate.alias], MovedEnvelope(policy, e, outcome, wait), now)]
         else after == mail
  {
    hide Inner, Retried, DeadLettered, Sent, LastOf;
  }

  /** The one transport call a step makes, if any. */
  function CallOf(policy: Policy, s: State, ev: Event): Option<(string, Call)> {
    match ev
    case Tick(d) => None
    case Deposit(alias, e) =>
      if alias in s.mail && e.Last(SentToFailureTransportStamp).None? then Some((alias, SendCall(e))) else None
    case Poll(alias) => if alias in s.mail then Some((alias, PollCall)) else None
    case Finish(key, outcome, wait) => if !CanFinish(s, key) then None else DispatchCall(policy, s, key, outcome, wait)
    case Settle(key) =>
      if key !in s.jobs || key.0 !in s.mail || key !in s.log.home || s.jobs[key].fate.None? then None
      else if s.jobs[key].fate.value.Kept? then Some((key.0, RejectCall(s.jobs[key].envelope, key.1)))
      else Some((key.0, AckCall(key.1)))
    case CloseTransport(alias, caller) => if alias in s.mail then Some((alias, CloseCall(caller))) else None
  }

  function DispatchCall(policy: Policy, s: State, key: Key, outcome: Outcome, wait: real): Option<(string, Call)>
    requires key in s.jobs
  {
    var e := s.jobs[key].envelope;
    var fate := Dispatch(policy, s.mail, e, outcome, wait, s.clock).1;
    if fate.Moved? && outcome.Failed?
    then Some((fate.alias, SendCall(MovedEnvelope(policy, e, outcome, wait)))) else None
  }

  ghost predicate MailAfter(mail: World, after: World, call: Option<(string, Call)>, now: real) {
    match call
    case None => after == mail
    case Some(c) => c.0 in mail && after == mail[c.0 := Apply(mail[c.0], c.1, now)]
  }

  /** Every step is at most one call on one transport. */
  lemma StepMakesOneCall(policy: Policy, s: State, ev: Event)
    requires Fitting(s.mail, s.jobs)
    ensures MailAfter(s.mail, Step(policy, s, ev).mail, CallOf(policy, s, ev), s.clock)
  {
    match ev
    case Tick(d) =>
    case Deposit(alias, e) =>
    case Poll(alias) =>
    case Finish(key, outcome, wait) => FinishCall(policy, s, key, outcome, wait);
    case Settle(key) => SettleCall(policy, s, key);
    case CloseTransport(alias, caller) =>
  }

  lemma SettleCall(policy: Policy, s: State, key: Key)
    requires Fitting(s.mail, s.jobs)
    ensures MailAfter(s.mail, WorkerSettled(s, key).mail, CallOf(policy, s, Settle(key)), s.clock)
  {
    if key in s.jobs {
      assert JobFits(s.mail, key, s.jobs[key]);
      DeliveredId(s.mail[key.0], s.mail[key.0].inFlight[key.1]);
      hide Delivered, Acked, Rejected;
    }
  }

  lemma FinishCall(policy: Policy, s: State, key: Key, outcome: Outcome, wait: real)
    ensures MailAfter(s.mail, Finished(policy, s, key, outcome, wait).mail,
                      CallOf(policy, s, Finish(key, outcome, wait)), s.clock)
  {
    hide Dispatch, MovedEnvelope, Judged, Counted;
    if key in s.jobs {
      DispatchShape(policy, s.mail, s.jobs[key].envelope, outcome, wait, s.clock);
    }
  }

  lemma CallKeepsSound(mail: World, after: World, call: Option<(string, Call)>, now: real)
    requires Sound(mail) && MailAfter(mail, after, call, now)
    ensures Sound(after)
  {
    if call.Some? {
      hide Consistent;
      ApplyKeepsConsistent(mail[call.value.0], call.value.1, now);
      assert Apply(mail[call.value.0], call.value.1, now).name == mail[call.value.0].name;
    }
  }

  // ---- The effect of calls on queued entries and jobs --------------------------------

  ghost function Ids(queue: seq<Entry>): set<string> { set x | x in queue :: x.id }

  lemma IdsInQueue(queue: seq<Entry>, id: string)
    ensures id in Ids(queue) <==> exists i :: 0 <= i < |queue| && queue[i].id == id
  {
    if id in Ids(queue) {
      var x :| x in queue && x.id == id;
      var i :| 0 <= i < |queue| && queue[i] == x;
    }
  }

  /** The pipeline has already passed the copy on, so the delivery only waits for its ack. */
  ghost predicate Spent(job: Job) { job.fate.Some? && !job.fate.value.Kept? }

  ghost predicate Queued(mail: World, k: Key) { k.0 in mail && k.1 in Ids(mail[k.0].queue) }

  ghost predicate Working(jobs: Jobs, k: Key) { k in jobs && !Spent(jobs[k]) }

  /** The entries that still stand for their copy: queued, or in flight and not passed on. */
  ghost function Live(mail: World, jobs: Jobs): iset<Key> { iset k: Key | Queued(mail, k) || Working(jobs, k) }

  lemma PushQueues(m: Mailbox, e: Envelope, at: real)
    requires Consistent(m)
    ensures Ids(Push(m, e, at).queue) == Ids(m.queue) + {Decimal(m.nextId)}
    ensures Decimal(m.nextId) !in Ids(m.queue) && Decimal(m.nextId) !in m.inFlight
  {
    NextIdIsFresh(m.nextId);
    IdsInQueue(m.queue, Decimal(m.nextId));
    assert m.queue + [Entry(Decimal(m.nextId), e, at)] == Push(m, e, at).queue;
  }

  lemma IdsOfRemoval(q: seq<Entry>, k: nat)
    requires DistinctIds(q) && k < |q|
    ensures Ids(q[..k] + q[k + 1..]) == Ids(q) - {q[k].id}
  {
    var rest := q[..k] + q[k + 1..];
    forall id ensures id in Ids(rest) <==> id in Ids(q) - {q[k].id} {
      IdsInQueue(q, id);
      IdsInQueue(rest, id);
      if id in Ids(q) - {q[k].id} {
        var i :| 0 <= i < |q| && q[i].id == id;
        assert rest[if i < k then i else i - 1] == q[i];
      }
    }
  }

  lemma TakeQueues(m: Mailbox, now: real)
    requires Consistent(m) && FirstDue(m.queue, now).Some?
    ensures var id := m.queue[FirstDue(m.queue, now).value].id;
      id in Ids(m.queue) && id !in m.inFlight && Ids(Taken(m, now).queue) == Ids(m.queue) - {id}
  {
    var k := FirstDue(m.queue, now).value;
    IdsOfRemoval(m.queue, k);
    IdsInQueue(m.queue, m.queue[k].id);
  }

  lemma AckOfInFlight(m: Mailbox, id: string)
    requires Consistent(m) && id in m.inFlight
    ensures Acked(m, id) == Settled(m, id) && id !in Ids(m.queue)
  {
    IdsInQueue(m.queue, id);
    forall x | x in m.queue ensures x.id != id {
      assert x.id in Ids(m.queue);
    }
    WithoutAbsent(m.queue, id);
  }

  /** A new entry is live, and was not before. */
  lemma PushLives(mail: World, jobs: Jobs, alias: string, e: Envelope, at: real)
    requires Sound(mail) && Fitting(mail, jobs) && alias in mail
    ensures var key := NextKey(mail, alias);
      key !in jobs && key !in Live(mail, jobs)
      && Live(mail[alias := Push(mail[alias], e, at)], jobs) == Live(mail, jobs) + iset{key}
  {
    PushQueues(mail[alias], e, at);
    hide Consistent;
    assert NextKey(mail, alias) in jobs ==> JobFits(mail, NextKey(mail, alias), jobs[NextKey(mail, alias)]);
  }

  /** Taking an entry moves it from the queue to a job and keeps it live. */
  lemma TakeLives(mail: World, jobs: Jobs, alias: string, now: real, job: Job)
    requires Sound(mail) && Fitting(mail, jobs) && alias in mail && FirstDue(mail[alias].queue, now).Some?
    requires job.fate.None?
    ensures var key := (alias, mail[alias].queue[FirstDue(mail[alias].queue, now).value].id);
      key in Live(mail, jobs) && key !in jobs
      && Live(mail[alias := Taken(mail[alias], now)], jobs[key := job]) == Live(mail, jobs)
  {
    TakeQueues(mail[alias], now);
    hide Consistent, Taken, FirstDue, Ids;
    var key := (alias, mail[alias].queue[FirstDue(mail[alias].queue, now).value].id);
    assert key in jobs ==> JobFits(mail, key, jobs[key]);
    var after := mail[alias := Taken(mail[alias], now)];
    assert forall k :: Queued(after, k) <==> Queued(mail, k) && k != key;
  }

  /** Releasing a delivery takes its entry away, unless it was passed on before. */
  lemma ReleaseLives(mail: World, jobs: Jobs, key: Key)
    requires Sound(mail) && Fitting(mail, jobs) && key in jobs
    ensures Acked(mail[key.0], key.1) == Settled(mail[key.0], key.1)
    ensures (key in Live(mail, jobs)) == Working(jobs, key)
    ensures Live(mail[key.0 := Settled(mail[key.0], key.1)], jobs - {key}) == Live(mail, jobs) - iset{key}
  {
    assert JobFits(mail, key, jobs[key]);
    AckOfInFlight(mail[key.0], key.1);
  }

  /** Deliveries other than the one released stay as they were. */
  lemma CallKeepsJob(mail: World, after: World, call: Option<(string, Call)>, now: real, k: Key, job: Job)
    requires Sound(mail) && MailAfter(mail, after, call, now) && JobFits(mail, k, job)
    requires call.Some? && call.value.0 == k.0 ==>
      !(call.value.1.AckCall? && call.value.1.id == k.1) && !(call.value.1.RejectCall? && call.value.1.id == k.1)
    ensures JobFits(after, k, job)
  {
    if call.Some? && call.value.0 == k.0 && call.value.1.PollCall? {
      var m := mail[k.0];
      if !m.closing && FirstDue(m.queue, now).Some? {
        TakeQueues(m, now);
      }
    }
  }

  // ---- Where the copies are ----------------------------------------------------------

  datatype Book = Book(live: iset<Key>, copies: nat, home: map<Key, nat>, latest: map<nat, Key>, ended: set<nat>)

  ghost function BookOf(live: iset<Key>, log: Ledger): Book {
    Book(live, log.copies, log.home, log.latest, log.handled + log.dropped)
  }

  /** `k` stands for one copy that is neither ended nor in limbo, and is where that copy was last put. */
  ghost predicate Carries(b: Book, k: Key, limbo: set<nat>) {
    && k in b.home && b.home[k] < b.copies && b.home[k] !in b.ended && b.home[k] !in limbo
    && b.home[k] in b.latest && b.latest[b.home[k]] == k
  }

  ghost predicate Carried(b: Book, c: nat) {
    c in b.latest && b.latest[c] in b.live && b.latest[c] in b.home && b.home[b.latest[c]] == c
  }

  /** Live entries and unfinished copies correspond one to one, the copies in `limbo` apart. */
  ghost predicate Placed(b: Book, limbo: set<nat>) {
    && (forall c :: c in b.ended || c in limbo ==> c < b.copies)
    && (forall k :: k in b.live ==> Carries(b, k, limbo))
    && (forall c: nat :: c < b.copies && c !in b.ended && c !in limbo ==> Carried(b, c))
  }

  lemma BookEnter(b: Book, key: Key, c: nat)
    requires Placed(b, {c}) && key !in b.live && c !in b.ended
    ensures Placed(b.(live := b.live + iset{key}, home := b.home[key := c], latest := b.latest[c := key]), {})
  {
    var t := b.(live := b.live + iset{key}, home := b.home[key := c], latest := b.latest[c := key]);
    forall k | k in t.live ensures Carries(t, k, {}) {
      assert k != key ==> Carries(b, k, {c});
    }
    forall d: nat | d < t.copies && d !in t.ended ensures Carried(t, d) {
      assert d != c ==> Carried(b, d);
    }
  }

  lemma BookLeave(b: Book, key: Key)
    requires Placed(b, {}) && key in b.live
    ensures key in b.home && b.home[key] !in b.ended
    ensures Placed(b.(live := b.live - iset{key}), {b.home[key]})
  {
    assert Carries(b, key, {});
    var t, c := b.(live := b.live - iset{key}), b.home[key];
    forall k | k in t.live ensures Carries(t, k, {c}) {
      assert Carries(b, k, {});
    }
    forall d: nat | d < t.copies && d !in t.ended && d != c ensures Carried(t, d) {
      assert Carried(b, d);
    }
  }

  lemma BookEnd(b: Book, c: nat)
    requires Placed(b, {c})
    ensures Placed(b.(ended := b.ended + {c}), {})
  {
    var t := b.(ended := b.ended + {c});
    forall k | k in t.live ensures Carries(t, k, {}) {
      assert Carries(b, k, {c});
    }
    forall d: nat | d < t.copies && d !in t.ended ensures Carried(t, d) {
      assert Carried(b, d);
    }
  }

  lemma BookNew(b: Book)
    requires Placed(b, {})
    ensures b.copies !in b.ended && Placed(b.(copies := b.copies + 1), {b.copies})
  {
    var t := b.(copies := b.copies + 1);
    forall k | k in t.live ensures Carries(t, k, {b.copies}) {
      assert Carries(b, k, {});
    }
    forall d: nat | d < t.copies && d !in t.ended && d != b.copies ensures Carried(t, d) {
      assert Carried(b, d);
    }
  }

  /** Every in-flight entry has a worker. */
  ghost predicate Staffed(mail: World, jobs: Jobs) {
    forall a, id :: a in mail && id in mail[a].inFlight ==> (a, id) in jobs
  }

  /** The transports and jobs agree, and every dispatched copy is in exactly one place. */
  ghost predicate Conserved(s: State) {
    && Sound(s.mail) && Fitting(s.mail, s.jobs) && Staffed(s.mail, s.jobs) && Recorded(s.jobs, s.log)
    && s.log.handled !! s.log.dropped && Placed(BookOf(Live(s.mail, s.jobs), s.log), {})
  }

  lemma DepositPlaces(s: State, alias: string, e: Envelope)
    requires Sound(s.mail) && Fitting(s.mail, s.jobs) && Placed(BookOf(Live(s.mail, s.jobs), s.log), {})
    requires alias in s.mail
    ensures var key := NextKey(s.mail, alias);
      var after := s.mail[alias := Push(s.mail[alias], e, s.clock + e.DelayMs())];
      forall received :: Placed(BookOf(Live(after, s.jobs), Opened(s.log, key, received)), {})
  {
    var b, key := BookOf(Live(s.mail, s.jobs), s.log), NextKey(s.mail, alias);
    PushLives(s.mail, s.jobs, alias, e, s.clock + e.DelayMs());
    hide Sound, Fitting, Live, Placed, Push;
    BookNew(b);
    BookEnter(b.(copies := b.copies + 1), key, b.copies);
  }

  lemma PollPlaces(s: State, alias: string)
    requires Sound(s.mail) && Fitting(s.mail, s.jobs) && Placed(BookOf(Live(s.mail, s.jobs), s.log), {})
    requires Polled(s, alias) != s && Recorded(s.jobs, s.log)
    ensures var t := Polled(s, alias); Placed(BookOf(Live(t.mail, t.jobs), t.log), {}) && Recorded(t.jobs, t.log)
  {
    var m := s.mail[alias];
    var i := FirstDue(m.queue, s.clock).value;
    var key := (alias, m.queue[i].id);
    TakeLives(s.mail, s.jobs, alias, s.clock, Job(Delivered(m, m.queue[i]), None));
    hide Sound, Fitting, Live, Delivered, Taken;
    assert Carries(BookOf(Live(s.mail, s.jobs), s.log), key, {});
  }

  lemma JudgedPlaces(live: iset<Key>, log: Ledger, key: Key, to: Key, fate: Fate)
    requires Placed(BookOf(live, log), {}) && key in live && key in log.home
    requires fate.Moved? ==> to !in live
    ensures var after :=
        if fate.Kept? then live else if fate.Moved? then live - iset{key} + iset{to} else live - iset{key};
      Placed(BookOf(after, Judged(log, to, log.home[key], fate)), {})
    ensures log.home[key] !in log.handled + log.dropped
  {
    hide Placed;
    var b, c := BookOf(live, log), log.home[key];
    BookLeave(b, key);
    var left := b.(live := live - iset{key});
    match fate
    case Kept =>
    case Done => BookEnd(left, c); assert b.ended + {c} == log.handled + {c} + log.dropped;
    case Discarded => BookEnd(left, c); assert b.ended + {c} == log.handled + (log.dropped + {c});
    case Moved(_) => BookEnter(left, to, c);
  }

  lemma NotQueued(mail: World, jobs: Jobs, key: Key)
    requires Sound(mail) && Fitting(mail, jobs) && key in jobs
    ensures !Queued(mail, key) && key.0 in mail && key.1 in mail[key.0].inFlight
  {
    assert JobFits(mail, key, jobs[key]);
    AckOfInFlight(mail[key.0], key.1);
  }

  /** Ending a dispatch takes its entry away unless the delivery is kept for a reject. */
  lemma PassLives(mail: World, jobs: Jobs, key: Key, fate: Fate)
    requires Sound(mail) && Fitting(mail, jobs) && key in jobs && jobs[key].fate.None?
    ensures var after := jobs[key := Job(jobs[key].envelope, Some(fate))];
      && key in Live(mail, jobs) && Fitting(mail, after)
      && Live(mail, after) == if fate.Kept? then Live(mail, jobs) else Live(mail, jobs) - iset{key}
  {
    NotQueued(mail, jobs, key);
    hide Sound;
    assert JobFits(mail, key, jobs[key]);
  }

  /** The live entries after a delivery's dispatch ended in `fate`, with `e` sent where it moved. */
  lemma FateLives(mail: World, jobs: Jobs, key: Key, fate: Fate, e: Envelope, now: real, after: World)
    requires Sound(mail) && Fitting(mail, jobs) && key in jobs && jobs[key].fate.None?
    requires if fate.Moved? then
                && fate.alias in mail && !mail[fate.alias].closing
                && after == mail[fate.alias := Sent(mail[fate.alias], e, now)]
             else after == mail
    ensures var to := if fate.Moved? then NextKey(mail, fate.alias) else key;
      var live, t := Live(mail, jobs), Live(after, jobs[key := Job(jobs[key].envelope, Some(fate))]);
      && key in live && (fate.Moved? ==> to !in live)
      && t == if fate.Kept? then live else if fate.Moved? then live - iset{key} + iset{to} else live - iset{key}
  {
    PassLives(mail, jobs, key, fate);
    hide Sound, Fitting, Live, Push;
    if fate.Moved? {
      PushLives(mail, jobs, fate.alias, e, now + e.DelayMs());
      PushLives(mail, jobs[key := Job(jobs[key].envelope, Some(fate))], fate.alias, e, now + e.DelayMs());
    }
  }

  lemma FinishLives(policy: Policy, s: State, key: Key, outcome: Outcome, wait: real)
    requires Sound(s.mail) && Fitting(s.mail, s.jobs) && CanFinish(s, key)
    ensures var t := Finished(policy, s, key, outcome, wait);
      && key in t.jobs && t.jobs[key].fate.Some?
      && var fate := t.jobs[key].fate.value;
         var to := if fate.Moved? then NextKey(s.mail, fate.alias) else key;
         var live := Live(s.mail, s.jobs);
         && key in live && (fate.Moved? ==> to !in live)
         && Live(t.mail, t.jobs) ==
              if fate.Kept? then live else if fate.Moved? then live - iset{key} + iset{to} else live - iset{key}
  {
    var e := s.jobs[key].envelope;
    var (mail, fate) := Dispatch(policy, s.mail, e, outcome, wait, s.clock);
    DispatchShape(policy, s.mail, e, outcome, wait, s.clock);
    hide Dispatch, Sound, Fitting, Live, Judged, Counted, MovedEnvelope, FailsEarly, Inner, OriginOf, NextKey, Sent;
    var m := if outcome.Failed? then MovedEnvelope(policy, e, outcome, wait) else e;
    FateLives(s.mail, s.jobs, key, fate, m, s.clock, mail);
  }

  lemma FinishPlaces(policy: Policy, s: State, key: Key, outcome: Outcome, wait: real)
    requires Sound(s.mail) && Fitting(s.mail, s.jobs) && Placed(BookOf(Live(s.mail, s.jobs), s.log), {})
    requires CanFinish(s, key) && s.log.handled !! s.log.dropped
    ensures var t := Finished(policy, s, key, outcome, wait);
      Placed(BookOf(Live(t.mail, t.jobs), t.log), {}) && t.log.handled !! t.log.dropped
  {
    hide Finished, Sound, Fitting, Live, Placed, NextKey;
    FinishLives(policy, s, key, outcome, wait);
    FinishJudges(policy, s, key, outcome, wait);
    var t := Finished(policy, s, key, outcome, wait);
    var fate := t.jobs[key].fate.value;
    var to := if fate.Moved? then NextKey(s.mail, fate.alias) else key;
    JudgedPlaces(Live(s.mail, s.jobs), s.log.(tally := t.log.tally), key, to, fate);
  }

  lemma FinishJudges(policy: Policy, s: State, key: Key, outcome: Outcome, wait: real)
    requires CanFinish(s, key)
    ensures var t := Finished(policy, s, key, outcome, wait);
      && key in t.jobs && t.jobs[key].fate.Some? && key in s.log.home
      && var fate := t.jobs[key].fate.value;
         var to := if fate.Moved? then NextKey(s.mail, fate.alias) else key;
         t.log == Judged(s.log.(tally := t.log.tally), to, s.log.home[key], fate)
  {
    hide Dispatch, Counted, FailsEarly, NextKey;
  }

  lemma SettlePlaces(s: State, key: Key)
    requires Sound(s.mail) && Fitting(s.mail, s.jobs) && Placed(BookOf(Live(s.mail, s.jobs), s.log), {})
    requires WorkerSettled(s, key) != s
    ensures var t := WorkerSettled(s, key); Placed(BookOf(Live(t.mail, t.jobs), t.log), {})
  {
    SettleLives(s, key);
    hide Sound, Fitting, Live, Placed;
    var b := BookOf(Live(s.mail, s.jobs), s.log);
    if Working(s.jobs, key) {
      BookLeave(b, key);
      BookEnter(b.(live := b.live - iset{key}), NextKey(s.mail, key.0), s.log.home[key]);
    }
  }

  lemma SettleLives(s: State, key: Key)
    requires Sound(s.mail) && Fitting(s.mail, s.jobs) && WorkerSettled(s, key) != s
    ensures var t, live, to := WorkerSettled(s, key), Live(s.mail, s.jobs), NextKey(s.mail, key.0);
      && (Working(s.jobs, key) ==> key in live && to !in live && Live(t.mail, t.jobs) == live - iset{key} + iset{to})
      && (!Working(s.jobs, key) ==> Live(t.mail, t.jobs) == live)
  {
    var m := s.mail[key.0];
    assert JobFits(s.mail, key, s.jobs[key]);
    DeliveredId(m, m.inFlight[key.1]);
    ReleaseLives(s.mail, s.jobs, key);
    if Working(s.jobs, key) {
      RejectLives(s, key);
    }
    hide Sound, Fitting, Live, Delivered, Rejected, Acked, Settled;
  }

  lemma RejectLives(s: State, key: Key)
    requires Sound(s.mail) && Fitting(s.mail, s.jobs) && key in s.jobs && Working(s.jobs, key)
    ensures var m, to := s.mail[key.0], NextKey(s.mail, key.0);
      && to !in Live(s.mail, s.jobs)
      && Live(s.mail[key.0 := Rejected(m, s.jobs[key].envelope, key.1, s.clock)], s.jobs - {key})
         == Live(s.mail, s.jobs) - iset{key} + iset{to}
  {
    PushLives(s.mail, s.jobs, key.0, Redelivery(s.jobs[key].envelope), s.clock);
    NotQueued(s.mail, s.jobs, key);
    hide Sound, Fitting, Delivered, Redelivery;
  }

  ghost predicate Releases(call: Option<(string, Call)>, k: Key) {
    call.Some? && call.value.0 == k.0 && match call.value.1
      case AckCall(id) => id == k.1
      case RejectCall(_, id) => id == k.1
      case _ => false
  }

  lemma SurvivorsAreNotReleased(policy: Policy, s: State, ev: Event, k: Key)
    requires Fitting(s.mail, s.jobs) && k in s.jobs && k in Step(policy, s, ev).jobs
    ensures !Releases(CallOf(policy, s, ev), k)
    ensures Step(policy, s, ev).jobs[k].envelope == s.jobs[k].envelope || (ev.Poll? && ev.alias == k.0)
  {
    hide Dispatch, Judged, Counted, MovedEnvelope, Taken, Acked, Rejected, Closed;
    if ev.Settle? && ev.key == k {
      assert JobFits(s.mail, k, s.jobs[k]);
      DeliveredId(s.mail[k.0], s.mail[k.0].inFlight[k.1]);
      hide Delivered;
    }
  }

  lemma PollStarts(s: State, alias: string, k: Key)
    requires Sound(s.mail) && Fitting(s.mail, s.jobs) && k in Polled(s, alias).jobs
    ensures k in s.jobs ==> Polled(s, alias).jobs[k] == s.jobs[k]
    ensures k !in s.jobs ==> JobFits(Polled(s, alias).mail, k, Polled(s, alias).jobs[k])
  {
    if Polled(s, alias) != s {
      var m := s.mail[alias];
      var key := (alias, m.queue[FirstDue(m.queue, s.clock).value].id);
      TakeQueues(m, s.clock);
      assert key in s.jobs ==> JobFits(s.mail, key, s.jobs[key]);
    }
  }

  lemma StepKeepsFitting(policy: Policy, s: State, ev: Event)
    requires Sound(s.mail) && Fitting(s.mail, s.jobs)
    ensures Fitting(Step(policy, s, ev).mail, Step(policy, s, ev).jobs)
  {
    hide Sound, CallOf, Finished, Deposited, Polled, WorkerSettled, Closed;
    var t := Step(policy, s, ev);
    StepMakesOneCall(policy, s, ev);
    forall k | k in t.jobs ensures JobFits(t.mail, k, t.jobs[k]) {
      if ev.Poll? {
        PollStarts(s, ev.alias, k);
      }
      if k in s.jobs {
        SurvivorsAreNotReleased(policy, s, ev, k);
        CallKeepsJob(s.mail, t.mail, CallOf(policy, s, ev), s.clock, k, s.jobs[k]);
      } else {
        NewJobsComeFromPolls(policy, s, ev, k);
      }
    }
  }

  lemma NewJobsComeFromPolls(policy: Policy, s: State, ev: Event, k: Key)
    requires k in Step(policy, s, ev).jobs && k !in s.jobs
    ensures ev.Poll?
  {
    hide Dispatch, Judged, Counted, Taken, Acked, Rejected, Closed;
  }

  lemma StepKeepsStaffed(policy: Policy, s: State, ev: Event)
    requires Fitting(s.mail, s.jobs) && Staffed(s.mail, s.jobs)
    ensures Staffed(Step(policy, s, ev).mail, Step(policy, s, ev).jobs)
  {
    hide CallOf, Finished, Deposited, Polled, WorkerSettled, Closed, Fitting;
    var t, call := Step(policy, s, ev), CallOf(policy, s, ev);
    StepMakesOneCall(policy, s, ev);
    forall a, id | a in t.mail && id in t.mail[a].inFlight ensures (a, id) in t.jobs {
      if ev.Poll? {
        PollStaffs(s, ev.alias, a, id);
      } else {
        OnlyPollsPoll(policy, s, ev);
        CallFrees(s.mail, t.mail, call, s.clock, a, id);
        if (a, id) !in t.jobs {
          LostJobsAreReleased(policy, s, ev, (a, id));
          assert false;
        }
      }
    }
  }

  lemma PollStaffs(s: State, alias: string, a: string, id: string)
    requires Staffed(s.mail, s.jobs) && a in Polled(s, alias).mail && id in Polled(s, alias).mail[a].inFlight
    ensures (a, id) in Polled(s, alias).jobs
  {
  }

  /** Only polling puts an entry in flight, and a release takes it out. */
  lemma CallFrees(mail: World, after: World, call: Option<(string, Call)>, now: real, a: string, id: string)
    requires MailAfter(mail, after, call, now) && a in after && id in after[a].inFlight
    requires call.Some? ==> !call.value.1.PollCall?
    ensures a in mail && id in mail[a].inFlight && !Releases(call, (a, id))
  {
  }

  lemma LostJobsAreReleased(policy: Policy, s: State, ev: Event, k: Key)
    requires Fitting(s.mail, s.jobs) && k in s.jobs && k !in Step(policy, s, ev).jobs
    ensures Releases(CallOf(policy, s, ev), k)
  {
    hide Dispatch, Judged, Counted, Taken, Acked, Rejected, Closed, MovedEnvelope;
    assert JobFits(s.mail, k, s.jobs[k]);
  }

  lemma OnlyPollsPoll(policy: Policy, s: State, ev: Event)
    requires !ev.Poll?
    ensures CallOf(policy, s, ev).Some? ==> !CallOf(policy, s, ev).value.1.PollCall?
  {
    hide Dispatch, MovedEnvelope;
  }

  /** `later` only adds to what `log` has on record. */
  ghost predicate Extends(log: Ledger, later: Ledger) {
    && log.copies <= later.copies
    && (forall k :: k in log.home && log.home[k] < log.copies ==> k in later.home && later.home[k] < later.copies)
    && (forall c: nat :: c < later.copies ==>
         if c < log.copies then (c in log.tally ==> c in later.tally) && (c in log.first ==> c in later.first)
                                && (c in log.origin ==> c in later.origin)
         else c in later.tally && c in later.first && c in later.origin)
  }

  lemma StepExtends(policy: Policy, s: State, ev: Event)
    requires Recorded(s.jobs, s.log)
    ensures Extends(s.log, Step(policy, s, ev).log)
  {
    hide Polled, Delivered, Acked, Rejected, Closed, Sent, Counted;
    match ev
    case Poll(alias) => assert Polled(s, alias).log == s.log by { PollKeepsLog(s, alias); }
    case Finish(key, outcome, wait) =>
      hide Dispatch, FailsEarly, Finished, Deposited, WorkerSettled;
      FinishExtends(policy, s, key, outcome, wait);
    case Deposit(alias, e) => hide Finished, WorkerSettled;
    case Settle(key) => hide Finished, Deposited;
    case _ => hide Finished, Deposited, WorkerSettled;
  }

  lemma PollKeepsLog(s: State, alias: string)
    ensures Polled(s, alias).log == s.log
  {
  }

  lemma FinishExtends(policy: Policy, s: State, key: Key, outcome: Outcome, wait: real)
    requires Recorded(s.jobs, s.log)
    ensures Extends(s.log, Finished(policy, s, key, outcome, wait).log)
  {
    hide Dispatch, FailsEarly, Counted;
  }

  lemma StepKeepsRecorded(policy: Policy, s: State, ev: Event)
    requires Conserved(s)
    ensures Recorded(Step(policy, s, ev).jobs, Step(policy, s, ev).log)
  {
    hide Live, Placed, Sound, Fitting, Staffed, Finished, Deposited, WorkerSettled, Closed, Delivered;
    if ev.Poll? && Polled(s, ev.alias) != s {
      PollPlaces(s, ev.alias);
    } else {
      hide Polled;
      StepExtends(policy, s, ev);
      forall k | k in Step(policy, s, ev).jobs ensures k in s.jobs {
        if k !in s.jobs {
          NewJobsComeFromPolls(policy, s, ev, k);
        }
      }
      hide Step, Conserved;
    }
  }

  lemma StepKeepsPlaced(policy: Policy, s: State, ev: Event)
    requires Conserved(s)
    ensures var t := Step(policy, s, ev);
      t.log.handled !! t.log.dropped && Placed(BookOf(Live(t.mail, t.jobs), t.log), {})
  {
    hide Placed, Sound, Fitting, Staffed, Recorded, Dispatch, Judged, Counted, Delivered, Taken, Acked, Rejected;
    match ev
    case Tick(d) =>
    case Deposit(alias, e) => if alias in s.mail { DepositPlaces(s, alias, e); }
    case Poll(alias) => if Polled(s, alias) != s { PollPlaces(s, alias); }
    case Finish(key, outcome, wait) =>
      if CanFinish(s, key) { FinishPlaces(policy, s, key, outcome, wait); }
    case Settle(key) => if WorkerSettled(s, key) != s { SettlePlaces(s, key); }
    case CloseTransport(alias, caller) =>
      if alias in s.mail {
        assert Live(s.mail[alias := Closed(s.mail[alias], caller)], s.jobs) == Live(s.mail, s.jobs);
      }
  }

  lemma StepConserves(policy: Policy, s: State, ev: Event)
    requires Conserved(s)
    ensures Conserved(Step(policy, s, ev))
  {
    StepMakesOneCall(policy, s, ev);
    CallKeepsSound(s.mail, Step(policy, s, ev).mail, CallOf(policy, s, ev), s.clock);
    StepKeepsFitting(policy, s, ev);
    StepKeepsStaffed(policy, s, ev);
    StepKeepsRecorded(policy, s, ev);
    StepKeepsPlaced(policy, s, ev);
    hide Sound, Fitting, Staffed, Recorded, Placed, Live, Step, CallOf;
  }

  lemma {:induction false} RunConserves(policy: Policy, s: State, events: seq<Event>)
    requires Conserved(s)
    ensures Conserved(Run(policy, s, events))
    decreases |events|
  {
    hide Conserved, Step;
    if events != [] {
      StepConserves(policy, s, events[0]);
      RunConserves(policy, Step(policy, s, events[0]), events[1..]);
    }
  }

  lemma InitialConserved(s: State)
    requires Initial(s)
    ensures Conserved(s)
  {
    assert Live(s.mail, s.jobs) == iset{};
  }

  /** Copy `c` is in entry `k`: in a queue, or in flight and not yet passed on. */
  ghost predicate Resides(s: State, c: nat, k: Key) {
    k in Live(s.mail, s.jobs) && k in s.log.home && s.log.home[k] == c
  }

  /**
   * In every run, each dispatched copy is handled, or dropped as exhausted, or in exactly one
   * entry; that entry is either in a queue or in flight with a worker, never both; and there is
   * no entry without a copy.
   */
  lemma EachCopyInOnePlace(policy: Policy, start: State, events: seq<Event>)
    requires Initial(start)
    ensures var s := Run(policy, start, events);
      && s.log.handled !! s.log.dropped
      && (forall c: nat :: c < s.log.copies ==>
           ((c in s.log.handled || c in s.log.dropped) <==> !exists k :: Resides(s, c, k)))
      && (forall c, j, k :: Resides(s, c, j) && Resides(s, c, k) ==> j == k)
      && (forall k :: k in Live(s.mail, s.jobs) ==> k in s.log.home && s.log.home[k] < s.log.copies)
      && (forall k :: !(Queued(s.mail, k) && k in s.jobs))
      && (forall a, id :: a in s.mail ==> (id in s.mail[a].inFlight <==> (a, id) in s.jobs))
  {
    InitialConserved(start);
    RunConserves(policy, start, events);
    var s := Run(policy, start, events);
    hide Run, Initial, Live, Sound;
    var b := BookOf(Live(s.mail, s.jobs), s.log);
    forall c: nat | c < s.log.copies
      ensures (c in s.log.handled || c in s.log.dropped) <==> !exists k :: Resides(s, c, k)
    {
      if k :| Resides(s, c, k) {
        assert Carries(b, k, {});
      } else if c !in s.log.handled && c !in s.log.dropped {
        assert Carried(b, c) && Resides(s, c, b.latest[c]);
      }
    }
    forall c, j, k | Resides(s, c, j) && Resides(s, c, k) ensures j == k {
      assert Carries(b, j, {}) && Carries(b, k, {});
    }
    forall k | k in Live(s.mail, s.jobs) ensures k in s.log.home && s.log.home[k] < s.log.copies {
      assert Carries(b, k, {});
    }
    forall k ensures !(Queued(s.mail, k) && k in s.jobs) {
      if k in s.jobs {
        NotQueued(s.mail, s.jobs, k);
      }
    }
    forall a, id | a in s.mail ensures id in s.mail[a].inFlight <==> (a, id) in s.jobs {
      assert (a, id) in s.jobs ==> JobFits(s.mail, (a, id), s.jobs[(a, id)]);
    }
  }
}
