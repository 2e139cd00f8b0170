/**
 * Kafka consumers over partitioned logs and one group's committed offsets. Commits are
 * unconditional; nothing is lost exactly as long as nobody pulls past a message of the same
 * partition that it was handed and that is not settled yet.
 */
module KafkaRuns {
  import opened Common

  /** A partition and an offset in it. */
  type At = (nat, nat)

  datatype Broker = Broker(log: map<nat, seq<Content>>, committed: map<nat, nat>)

  /**
   * `position` is the next offset to fetch from each assigned partition, `failed` the deliveries
   * whose reject failed before its copy was published.
   */
  datatype Instance = Instance(
    buffer: seq<At>, inFlight: set<At>, position: map<nat, nat>, closing: bool, failed: set<At>)

  /** What is left of a settle: publish the copy, then commit; an ack or a discard only commits. */
  datatype Work = Moving | Committing

  datatype Task = Task(owner: string, at: At, work: Work)

  /** A record of the run: the newest copy of each message, and the copies someone acked. */
  datatype Log = Log(messages: nat, latest: map<nat, At>, acked: set<At>)

  datatype State = State(
    broker: Broker, instances: map<string, Instance>, tasks: map<nat, Task>, nextTask: nat, log: Log)

  datatype Event =
    | Start(name: string)
    | Assign(name: string, partition: nat)
    | Send(name: string, partition: nat, decodes: bool)
    | Fetch(name: string, partition: nat)
    | Pull(name: string)
    | Ack(name: string, at: At)
    | Reject(name: string, at: At)
    | Advance(task: nat, partition: nat)
    | Abandon(task: nat)
    | Close(name: string)
    | Crash(name: string)

  ghost predicate Initial(s: State) {
    && (forall p :: p in s.broker.log <==> p in s.broker.committed)
    && (forall p :: p in s.broker.log ==> s.broker.log[p] == [])
    && (forall p :: p in s.broker.committed ==> s.broker.committed[p] == 0)
    && s.instances == map[] && s.tasks == map[] && s.log == Log(0, map[], {})
  }

  // ---- Steps -------------------------------------------------------------------------

  function With(s: State, name: string, i: Instance): State { s.(instances := s.instances[name := i]) }

  predicate Exists(broker: Broker, at: At) {
    at.0 in broker.log && at.0 in broker.committed && at.1 < |broker.log[at.0]|
  }

  function ContentOf(broker: Broker, at: At): Content
    requires Exists(broker, at)
  {
    broker.log[at.0][at.1]
  }

  /** The producer appends a copy, the newest of its message. */
  function Published(s: State, p: nat, c: Content): State
    requires p in s.broker.log
  {
    s.(broker := s.broker.(log := s.broker.log[p := s.broker.log[p] + [c]]),
       log := s.log.(latest := s.log.latest[c.message := (p, |s.broker.log[p]|)],
                     messages := if c.message < s.log.messages then s.log.messages else c.message + 1))
  }

  /** A partition is read by one instance at a time, from the committed offset on. */
  predicate CanAssign(s: State, name: string, p: nat) {
    name in s.instances && p in s.broker.committed && forall i :: i in s.instances ==> p !in s.instances[i].position
  }

  function Assigned(s: State, name: string, p: nat): State {
    if !CanAssign(s, name, p) then s
    else With(s, name, s.instances[name].(position := s.instances[name].position[p := s.broker.committed[p]]))
  }

  /** `onMessage` */
  function Fetched(s: State, name: string, p: nat): State {
    if name !in s.instances || p !in s.instances[name].position || p !in s.broker.log then s
    else
      var i := s.instances[name];
      if i.position[p] >= |s.broker.log[p]| then s
      else With(s, name, i.(buffer := i.buffer + [(p, i.position[p])], position := i.position[p := i.position[p] + 1]))
  }

  function Issue(s: State, task: Task): State { s.(tasks := s.tasks[s.nextTask := task], nextTask := s.nextTask + 1) }

  /** `get` shifts the buffer: a poison message is committed past, any other delivered. */
  function Pulled(s: State, name: string): State {
    if name !in s.instances || s.instances[name].buffer == [] || s.instances[name].closing then s
    else
      var i := s.instances[name];
      var at, rest := i.buffer[0], i.(buffer := i.buffer[1..]);
      if !Exists(s.broker, at) then s
      else if !ContentOf(s.broker, at).decodes then Issue(With(s, name, rest), Task(name, at, Committing))
      else With(s, name, rest.(inFlight := i.inFlight + {at}))
  }

  function Released(s: State, name: string, at: At): State
    requires name in s.instances
  {
    With(s, name, s.instances[name].(inFlight := s.instances[name].inFlight - {at}))
  }

  /** Both settles act on a delivery of this instance's only. */
  function AckStep(s: State, name: string, at: At): State {
    if name !in s.instances || at !in s.instances[name].inFlight then s
    else Issue(Released(s, name, at).(log := s.log.(acked := s.log.acked + {at})), Task(name, at, Committing))
  }

  function RejectStep(s: State, name: string, at: At): State {
    if name !in s.instances || at !in s.instances[name].inFlight then s
    else Issue(Released(s, name, at), Task(name, at, Moving))
  }

  function Committed(broker: Broker, at: At): Broker { broker.(committed := broker.committed[at.0 := at.1 + 1]) }

  /** The copy goes to whichever partition the producer picks. */
  function Advanced(s: State, n: nat, p: nat): State {
    if n !in s.tasks || !Exists(s.broker, s.tasks[n].at) then s
    else
      var t := s.tasks[n];
      match t.work
      case Moving =>
        if p !in s.broker.log then s
        else
          Published(s, p, Content(ContentOf(s.broker, t.at).message, true))
          .(tasks := s.tasks[n := t.(work := Committing)])
      case Committing => s.(broker := Committed(s.broker, t.at), tasks := s.tasks - {n})
  }

  /** A command fails, and the rest of the settle is given up. */
  function Abandoned(s: State, n: nat): State {
    if n !in s.tasks then s
    else
      var t, task := s.(tasks := s.tasks - {n}), s.tasks[n];
      if task.work.Committing? || task.owner !in s.instances then t
      else With(t, task.owner, s.instances[task.owner].(failed := s.instances[task.owner].failed + {task.at}))
  }

  function Crashed(s: State, name: string): State {
    s.(instances := s.instances - {name}, tasks := map n | n in s.tasks && s.tasks[n].owner != name :: s.tasks[n])
  }

  function Step(s: State, ev: Event): State {
    match ev
    case Start(name) => if name in s.instances then s else With(s, name, Instance([], {}, map[], false, {}))
    case Assign(name, p) => Assigned(s, name, p)
    case Send(name, p, decodes) =>
      if name !in s.instances || s.instances[name].closing || p !in s.broker.log then s
      else Published(s, p, Content(s.log.messages, decodes))
    case Fetch(name, p) => Fetched(s, name, p)
    case Pull(name) => Pulled(s, name)
    case Ack(name, at) => AckStep(s, name, at)
    case Reject(name, at) => RejectStep(s, name, at)
    case Advance(n, p) => Advanced(s, n, p)
    case Abandon(n) => Abandoned(s, n)
    case Close(name) => if name in s.instances then With(s, name, s.instances[name].(closing := true)) else s
    case Crash(name) => Crashed(s, name)
  }

  function Run(s: State, events: seq<Event>): State
    decreases |events|
  {
    if events == [] then s else Run(Step(s, events[0]), events[1..])
  }

  // ---- What is settled, and who has what ---------------------------------------------

  /** Acked, undecodable, or copied anew since. */
  predicate Settled(s: State, at: At)
    requires Exists(s.broker, at)
  {
    || at in s.log.acked
    || !ContentOf(s.broker, at).decodes
    || (ContentOf(s.broker, at).message in s.log.latest && s.log.latest[ContentOf(s.broker, at).message] != at)
  }

  /** In the log, and not settled. */
  predicate Open(s: State, at: At) { Exists(s.broker, at) && !Settled(s, at) }

  predicate Tasked(tasks: map<nat, Task>, name: string, at: At) {
    exists n :: n in tasks && tasks[n].owner == name && tasks[n].at == at
  }

  /** `at` is being worked on by `name`: handed out, or being settled. */
  predicate Working(s: State, name: string, at: At) {
    (name in s.instances && at in s.instances[name].inFlight) || Tasked(s.tasks, name, at)
  }

  /** `name` has taken `at` off its buffer and is not known to be done with it. */
  predicate Taken(s: State, name: string, at: At) {
    Working(s, name, at) || (name in s.instances && at in s.instances[name].failed)
  }

  /** A message is at hand, and a pull takes it. */
  predicate CanPull(s: State, name: string) {
    name in s.instances && !s.instances[name].closing && s.instances[name].buffer != []
  }

  /** The pull would go past an open message of the same partition that this instance has taken. */
  ghost predicate Overtakes(s: State, name: string)
    requires CanPull(s, name)
  {
    exists at :: Taken(s, name, at) && at.0 == s.instances[name].buffer[0].0 && Open(s, at)
  }

  /**
   * The discipline, partition by partition: what an instance was handed of a partition is acked,
   * or its copy published, before it pulls the next message of that partition.
   */
  ghost predicate Prompt(s: State, ev: Event) { ev.Pull? && CanPull(s, ev.name) ==> !Overtakes(s, ev.name) }

  ghost predicate PromptRun(s: State, events: seq<Event>)
    decreases |events|
  {
    events != [] ==> Prompt(s, events[0]) && PromptRun(Step(s, events[0]), events[1..])
  }

  /** As `Worker` leaves it between two messages: everything was settled, and nothing failed. */
  predicate Idle(s: State, name: string) {
    && name in s.instances && s.instances[name].inFlight == {} && s.instances[name].failed == {}
    && forall n :: n in s.tasks ==> s.tasks[n].owner != name
  }

  /** A worker, which settles each message before it pulls the next and ends when a settle fails, is prompt. */
  lemma IdleIsPrompt(s: State, name: string)
    requires Idle(s, name)
    ensures Prompt(s, Pull(name)) && forall at :: !Taken(s, name, at)
  {
  }

  // ---- What holds of any run ---------------------------------------------------------

  ghost predicate BooksMatch(s: State) {
    && (forall p :: p in s.broker.log <==> p in s.broker.committed)
    && (forall p :: p in s.broker.log && p in s.broker.committed ==> s.broker.committed[p] <= |s.broker.log[p]|)
    && (forall m: nat :: m in s.log.latest <==> m < s.log.messages)
    && (forall m :: m in s.log.latest ==>
          Exists(s.broker, s.log.latest[m]) && ContentOf(s.broker, s.log.latest[m]).message == m)
    && (forall at :: Exists(s.broker, at) ==> ContentOf(s.broker, at).message < s.log.messages)
  }

  /** `at` was fetched by `i`, before all of its partition that is still in the buffer. */
  predicate BeforeBuffer(i: Instance, at: At) {
    && at.0 in i.position && at.1 < i.position[at.0]
    && forall k :: 0 <= k < |i.buffer| && i.buffer[k].0 == at.0 ==> at.1 < i.buffer[k].1
  }

  /** The buffer holds each partition in order, from what was fetched of it. */
  ghost predicate InOrder(broker: Broker, i: Instance) {
    && (forall p :: p in i.position ==> p in broker.log && i.position[p] <= |broker.log[p]|)
    && (forall k :: 0 <= k < |i.buffer| ==>
          i.buffer[k].0 in i.position && i.buffer[k].1 < i.position[i.buffer[k].0])
    && (forall j, k :: 0 <= j < k < |i.buffer| && i.buffer[j].0 == i.buffer[k].0 ==> i.buffer[j].1 < i.buffer[k].1)
  }

  ghost predicate AllInOrder(s: State) { forall i :: i in s.instances ==> InOrder(s.broker, s.instances[i]) }

  ghost predicate TakenFits(s: State) {
    forall i, at :: Taken(s, i, at) ==> i in s.instances && BeforeBuffer(s.instances[i], at)
  }

  /** What waits for its commit is settled. */
  ghost predicate TasksFit(s: State) {
    && (forall n :: n in s.tasks ==> n < s.nextTask)
    && (forall n :: n in s.tasks && s.tasks[n].work.Committing? ==> !Open(s, s.tasks[n].at))
  }

  ghost predicate Tidy(s: State) { BooksMatch(s) && TakenFits(s) && AllInOrder(s) && TasksFit(s) }

  /** What is in the log stays, and what is settled stays settled. */
  ghost predicate Grows(s: State, t: State) {
    && (forall p :: p in s.broker.log ==> p in t.broker.log && |s.broker.log[p]| <= |t.broker.log[p]|)
    && (forall at :: Exists(s.broker, at) ==> Exists(t.broker, at) && (Open(t, at) ==> Open(s, at)))
  }

  lemma PublishedKeepsBooks(s: State, p: nat, c: Content)
    requires BooksMatch(s) && p in s.broker.log && c.message <= s.log.messages
    ensures BooksMatch(Published(s, p, c))
    ensures forall at :: Exists(s.broker, at) ==>
      Exists(Published(s, p, c).broker, at) && ContentOf(Published(s, p, c).broker, at) == ContentOf(s.broker, at)
  {
    var t := Published(s, p, c);
    var added := (p, |s.broker.log[p]|);
    assert Exists(t.broker, added) && ContentOf(t.broker, added) == c;
    forall at | Exists(t.broker, at) && at != added
      ensures Exists(s.broker, at) && ContentOf(t.broker, at) == ContentOf(s.broker, at) {}
  }

  /** A new copy settles its older copies and unsettles nothing. */
  lemma PublishedGrows(s: State, p: nat, c: Content)
    requires BooksMatch(s) && p in s.broker.log && c.message <= s.log.messages
    ensures BooksMatch(Published(s, p, c)) && Grows(s, Published(s, p, c))
    ensures forall at :: Exists(s.broker, at) && ContentOf(s.broker, at).message == c.message ==>
      !Open(Published(s, p, c), at)
  {
    var t := Published(s, p, c);
    PublishedKeepsBooks(s, p, c);
    forall at | Exists(s.broker, at)
      ensures Open(t, at) ==> Open(s, at) && ContentOf(s.broker, at).message != c.message
    {
      assert at != (p, |s.broker.log[p]|);
    }
    hide BooksMatch, Open, Exists;
  }

  /** Only acks are added. */
  lemma AckedGrows(s: State, t: State)
    requires BooksMatch(s) && t.broker == s.broker
    requires t.log.latest == s.log.latest && t.log.messages == s.log.messages && s.log.acked <= t.log.acked
    ensures BooksMatch(t) && Grows(s, t)
  {
  }

  lemma CommittedGrows(s: State, at: At)
    requires BooksMatch(s) && Exists(s.broker, at)
    ensures var t := s.(broker := Committed(s.broker, at)); BooksMatch(t) && Grows(s, t)
  {
    var t := s.(broker := Committed(s.broker, at));
    forall x ensures Exists(t.broker, x) <==> Exists(s.broker, x) {}
  }

  lemma AnotherTask(tasks: map<nat, Task>, n: nat, task: Task)
    requires n !in tasks
    ensures forall i, x :: Tasked(tasks[n := task], i, x) <==> Tasked(tasks, i, x) || (i == task.owner && x == task.at)
  {
    var more := tasks[n := task];
    assert n in more && more[n] == task;
    forall i, x | Tasked(tasks, i, x) ensures Tasked(more, i, x) {
      var k :| k in tasks && tasks[k].owner == i && tasks[k].at == x;
      assert k in more && more[k] == tasks[k];
    }
  }

  lemma OneTaskLess(tasks: map<nat, Task>, n: nat)
    requires n in tasks
    ensures forall i, x :: Tasked(tasks, i, x) ==>
      Tasked(tasks - {n}, i, x) || (i == tasks[n].owner && x == tasks[n].at)
    ensures forall i, x :: Tasked(tasks - {n}, i, x) ==> Tasked(tasks, i, x)
    ensures Tasked(tasks, tasks[n].owner, tasks[n].at)
  {
    forall i, x | Tasked(tasks, i, x) && !(i == tasks[n].owner && x == tasks[n].at) ensures Tasked(tasks - {n}, i, x) {
      var k :| k in tasks && tasks[k].owner == i && tasks[k].at == x;
      assert k in tasks - {n};
    }
  }

  lemma OtherWork(tasks: map<nat, Task>, n: nat, work: Work)
    requires n in tasks
    ensures forall i, x :: Tasked(tasks[n := tasks[n].(work := work)], i, x) <==> Tasked(tasks, i, x)
  {
    var t := tasks[n := tasks[n].(work := work)];
    forall i, x ensures Tasked(t, i, x) <==> Tasked(tasks, i, x) {
      if k :| k in tasks && tasks[k].owner == i && tasks[k].at == x {
        assert k in t && t[k].owner == i && t[k].at == x;
      }
    }
  }

  // ---- Steps that leave the buffers alone --------------------------------------------

  const FRESH := Instance([], {}, map[], false, {})

  ghost predicate SameBuffers(s: State, t: State) {
    forall i :: i in t.instances ==>
      if i in s.instances then
        t.instances[i].buffer == s.instances[i].buffer && t.instances[i].position == s.instances[i].position
      else t.instances[i] == FRESH
  }

  ghost predicate TakesNothing(s: State, t: State) {
    forall i, at :: Taken(t, i, at) ==> Taken(s, i, at) && i in t.instances
  }

  ghost predicate LetsGoSettled(s: State, t: State) {
    forall i, at :: i in t.instances && Taken(s, i, at) ==> Taken(t, i, at) || !Open(t, at)
  }

  /** Buffers and positions stay, nothing new is taken, and only what is settled is let go. */
  ghost predicate Onward(s: State, t: State) {
    BooksMatch(t) && Grows(s, t) && SameBuffers(s, t) && TakesNothing(s, t) && LetsGoSettled(s, t) && TasksFit(t)
  }

  lemma OnwardKeepsTidy(s: State, t: State)
    requires Tidy(s) && Onward(s, t)
    ensures Tidy(t)
  {
    hide BooksMatch, Taken, Open, Exists, TasksFit, LetsGoSettled;
    assert TakenFits(t) by {
      forall i, at | Taken(t, i, at) ensures i in t.instances && BeforeBuffer(t.instances[i], at) {
        assert Taken(s, i, at);
      }
    }
    hide TakenFits, TakesNothing, BeforeBuffer;
    forall i | i in t.instances ensures InOrder(t.broker, t.instances[i]) {
      if i in s.instances { assert InOrder(s.broker, s.instances[i]); }
    }
  }

  lemma SameOpen(s: State, t: State)
    requires t.broker == s.broker && t.log == s.log
    ensures forall at :: Open(t, at) == Open(s, at)
  {
  }

  lemma SameBooks(u: State, t: State)
    requires t.broker == u.broker && t.log == u.log && BooksMatch(u)
    ensures BooksMatch(t)
  {
  }

  lemma SameBroker(s: State, u: State, t: State)
    requires t.broker == u.broker && t.log == u.log && BooksMatch(u) && Grows(s, u)
    ensures BooksMatch(t) && Grows(s, t) && forall at :: Open(t, at) == Open(u, at)
  {
    SameOpen(u, t);
    SameBooks(u, t);
    hide Open, BooksMatch;
  }

  /** What is being settled is in the log. */
  lemma TasksAreOld(s: State)
    requires Tidy(s)
    ensures forall n :: n in s.tasks ==>
      && s.tasks[n].owner in s.instances && Taken(s, s.tasks[n].owner, s.tasks[n].at)
      && Exists(s.broker, s.tasks[n].at)
  {
    forall n | n in s.tasks
      ensures s.tasks[n].owner in s.instances && Taken(s, s.tasks[n].owner, s.tasks[n].at)
      ensures Exists(s.broker, s.tasks[n].at)
    {
      assert Taken(s, s.tasks[n].owner, s.tasks[n].at);
      TakenIsOld(s, s.tasks[n].owner, s.tasks[n].at);
    }
  }

  lemma TakenIsOld(s: State, i: string, at: At)
    requires Tidy(s) && Taken(s, i, at)
    ensures i in s.instances && Exists(s.broker, at)
  {
    hide Taken, Open;
    assert BeforeBuffer(s.instances[i], at) && InOrder(s.broker, s.instances[i]);
  }

  /** What waits for its commit stays settled. */
  lemma CommitsStaySettled(s: State, t: State)
    requires Tidy(s) && Grows(s, t)
    ensures forall n :: n in s.tasks && s.tasks[n].work.Committing? ==> !Open(t, s.tasks[n].at)
  {
    TasksAreOld(s);
    hide BooksMatch, Open, Taken, TakenFits, BeforeBuffer, InOrder, Exists;
  }

  /** The common case: everybody has what they had. */
  lemma SameTaken(s: State, t: State)
    requires Tidy(s) && t.instances.Keys == s.instances.Keys && forall i, at :: Taken(t, i, at) <==> Taken(s, i, at)
    ensures TakesNothing(s, t) && LetsGoSettled(s, t)
  {
    hide BooksMatch, Taken, Open, BeforeBuffer, InOrder, TasksFit;
    forall i, at | Taken(t, i, at) ensures i in t.instances {
      assert i in s.instances;
    }
  }

  lemma SameTasks(s: State, t: State)
    requires Tidy(s) && Grows(s, t) && t.tasks == s.tasks && t.nextTask == s.nextTask
    ensures TasksFit(t)
  {
    CommitsStaySettled(s, t);
    hide BooksMatch, Taken, Open, BeforeBuffer, InOrder, TakenFits, Grows;
  }

  lemma StartIsOnward(s: State, name: string)
    requires Tidy(s) && name !in s.instances
    ensures Onward(s, With(s, name, FRESH))
  {
    var t := With(s, name, FRESH);
    AckedGrows(s, t);
    SameTasks(s, t);
    hide BooksMatch, Grows, Open, BeforeBuffer, InOrder, TasksFit;
    forall i, at | Taken(t, i, at) ensures Taken(s, i, at) && i in t.instances {}
    forall i, at | i in t.instances && Taken(s, i, at) ensures Taken(t, i, at) {
      assert i in s.instances;
    }
  }

  lemma SendIsOnward(s: State, p: nat, c: Content)
    requires Tidy(s) && p in s.broker.log && c.message <= s.log.messages
    ensures Onward(s, Published(s, p, c))
  {
    var t := Published(s, p, c);
    PublishedGrows(s, p, c);
    forall i, at ensures Taken(t, i, at) == Taken(s, i, at) {}
    SameTaken(s, t);
    SameTasks(s, t);
    hide Tidy, BooksMatch, Grows, TakesNothing, LetsGoSettled, TasksFit;
  }

  /** A settle begins: the delivery becomes a task. */
  predicate Begins(s: State, t: State, name: string, at: At, work: Work) {
    && name in s.instances && at in s.instances[name].inFlight
    && t.instances == s.instances[name := s.instances[name].(inFlight := s.instances[name].inFlight - {at})]
    && t.tasks == s.tasks[s.nextTask := Task(name, at, work)] && t.nextTask == s.nextTask + 1
    && t.broker == s.broker && (t.log == s.log || t.log == s.log.(acked := s.log.acked + {at}))
    && (work.Moving? || at in t.log.acked)
  }

  lemma BeginsTaken(s: State, t: State, name: string, at: At, work: Work)
    requires Begins(s, t, name, at, work) && s.nextTask !in s.tasks
    ensures forall i, x :: Taken(t, i, x) == Taken(s, i, x)
  {
    AnotherTask(s.tasks, s.nextTask, Task(name, at, work));
    hide Tasked;
    forall i, x ensures Taken(t, i, x) == Taken(s, i, x) {
      assert Tasked(t.tasks, i, x) <==> Tasked(s.tasks, i, x) || (i == name && x == at);
      if i == name {
        assert t.instances[i].failed == s.instances[i].failed;
        assert x in s.instances[i].inFlight <==> x in t.instances[i].inFlight || x == at;
      } else {
        assert i in t.instances <==> i in s.instances;
      }
    }
  }

  lemma BeginsTasksFit(s: State, t: State, name: string, at: At, work: Work)
    requires Tidy(s) && Begins(s, t, name, at, work)
    ensures TasksFit(t)
  {
    AckedGrows(s, t);
    CommitsStaySettled(s, t);
    assert at in t.log.acked ==> !Open(t, at);
    hide BooksMatch, Grows, Open, TakenFits, AllInOrder;
  }

  lemma BeginsIsOnward(s: State, t: State, name: string, at: At, work: Work)
    requires Tidy(s) && Begins(s, t, name, at, work)
    ensures Onward(s, t)
  {
    BeginsTaken(s, t, name, at, work);
    BeginsTasksFit(s, t, name, at, work);
    AckedGrows(s, t);
    SameTaken(s, t);
    hide Tidy, BooksMatch, Grows, TakesNothing, LetsGoSettled, TasksFit;
  }

  /** Once the copy is in the log the original is settled, and only the commit is left. */
  lemma MoveIsOnward(s: State, n: nat, p: nat)
    requires Tidy(s) && n in s.tasks && s.tasks[n].work.Moving?
    ensures Onward(s, Advanced(s, n, p))
  {
    TasksAreOld(s);
    var at := s.tasks[n].at;
    if p in s.broker.log {
      var c := Content(ContentOf(s.broker, at).message, true);
      assert c.message <= s.log.messages;
      SendIsOnward(s, p, c);
      PublishedGrows(s, p, c);
      RetaskIsOnward(s, Published(s, p, c), n);
    } else {
      NothingIsOnward(s);
    }
  }

  lemma NothingIsOnward(s: State)
    requires Tidy(s)
    ensures Onward(s, s)
  {
    AckedGrows(s, s);
    SameTaken(s, s);
    hide BooksMatch, Grows, TakesNothing, LetsGoSettled, TakenFits, InOrder, TasksFit;
  }

  lemma RetaskIsOnward(s: State, u: State, n: nat)
    requires Onward(s, u) && n in u.tasks && !Open(u, u.tasks[n].at)
    ensures Onward(s, u.(tasks := u.tasks[n := u.tasks[n].(work := Committing)]))
  {
    var t := u.(tasks := u.tasks[n := u.tasks[n].(work := Committing)]);
    OtherWork(u.tasks, n, Committing);
    forall i, x ensures Taken(t, i, x) == Taken(u, i, x) { hide Tasked; }
    SameBroker(s, u, t);
    hide BooksMatch, Grows, Taken, Open;
  }

  lemma CommitIsOnward(s: State, n: nat)
    requires Tidy(s) && n in s.tasks && s.tasks[n].work.Committing?
    ensures Onward(s, s.(broker := Committed(s.broker, s.tasks[n].at), tasks := s.tasks - {n}))
  {
    TasksAreOld(s);
    var at := s.tasks[n].at;
    var u := s.(broker := Committed(s.broker, at));
    CommittedGrows(s, at);
    var t := u.(tasks := s.tasks - {n});
    OneTaskLess(s.tasks, n);
    DroppedIsOnward(s, u, n);
  }

  lemma DroppedTaken(s: State, u: State, n: nat)
    requires Tidy(s) && n in s.tasks && u.instances == s.instances && u.tasks == s.tasks
    ensures var t := u.(tasks := s.tasks - {n});
      && TakesNothing(s, t)
      && (forall i, x :: Taken(s, i, x) ==> Taken(t, i, x) || (i == s.tasks[n].owner && x == s.tasks[n].at))
  {
    OneTaskLess(s.tasks, n);
    hide Tasked, BooksMatch, AllInOrder, TasksFit, BeforeBuffer;
    var t := u.(tasks := s.tasks - {n});
    forall i, x | Taken(t, i, x) ensures Taken(s, i, x) && i in t.instances {
      assert Taken(s, i, x);
      assert i in s.instances;
    }
  }

  lemma DroppedLetsGo(s: State, u: State, n: nat)
    requires Tidy(s) && Grows(s, u) && n in s.tasks && s.tasks[n].work.Committing?
    requires u.instances == s.instances && u.tasks == s.tasks && u.nextTask == s.nextTask && u.log == s.log
    ensures var t := u.(tasks := s.tasks - {n}); LetsGoSettled(s, t) && TasksFit(t)
  {
    var t := u.(tasks := s.tasks - {n});
    DroppedTaken(s, u, n);
    CommitsStaySettled(s, u);
    SameOpen(u, t);
    hide Taken, Open, BooksMatch, Grows, AllInOrder, TakenFits, TakesNothing;
  }

  /** A task whose message is settled is dropped. */
  lemma DroppedIsOnward(s: State, u: State, n: nat)
    requires Tidy(s) && BooksMatch(u) && Grows(s, u) && n in s.tasks && s.tasks[n].work.Committing?
    requires u.instances == s.instances && u.tasks == s.tasks && u.nextTask == s.nextTask && u.log == s.log
    ensures Onward(s, u.(tasks := s.tasks - {n}))
  {
    DroppedTaken(s, u, n);
    DroppedLetsGo(s, u, n);
    SameBroker(s, u, u.(tasks := s.tasks - {n}));
    hide BooksMatch, TasksFit, Grows, Taken, LetsGoSettled, TakenFits, AllInOrder;
  }

  lemma AbandonIsOnward(s: State, n: nat)
    requires Tidy(s)
    ensures Onward(s, Abandoned(s, n))
  {
    TasksAreOld(s);
    if n !in s.tasks {
      NothingIsOnward(s);
    } else if s.tasks[n].work.Committing? {
      AckedGrows(s, s);
      DroppedIsOnward(s, s, n);
    } else {
      FailureIsOnward(s, n);
    }
  }

  lemma FailureTaken(s: State, n: nat)
    requires n in s.tasks && s.tasks[n].work.Moving? && s.tasks[n].owner in s.instances
    ensures forall i, x :: Taken(Abandoned(s, n), i, x) <==> Taken(s, i, x)
  {
    var t := Abandoned(s, n);
    OneTaskLess(s.tasks, n);
    hide Tasked;
    forall i, x ensures Taken(t, i, x) == Taken(s, i, x) {
      assert i in t.instances <==> i in s.instances;
    }
  }

  lemma FailureTasksFit(s: State, n: nat)
    requires Tidy(s)
    ensures TasksFit(Abandoned(s, n))
  {
    SameOpen(s, Abandoned(s, n));
    hide BooksMatch, Open, TakenFits, AllInOrder;
  }

  lemma FailureIsOnward(s: State, n: nat)
    requires Tidy(s) && n in s.tasks && s.tasks[n].work.Moving? && s.tasks[n].owner in s.instances
    ensures Onward(s, Abandoned(s, n))
  {
    var t := Abandoned(s, n);
    FailureTaken(s, n);
    AckedGrows(s, t);
    FailureTasksFit(s, n);
    SameTaken(s, t);
    hide Tidy, BooksMatch, Grows, TakesNothing, LetsGoSettled, TasksFit;
  }

  lemma CloseIsOnward(s: State, name: string)
    requires Tidy(s) && name in s.instances
    ensures Onward(s, With(s, name, s.instances[name].(closing := true)))
  {
    var t := With(s, name, s.instances[name].(closing := true));
    AckedGrows(s, t);
    forall i, x ensures Taken(t, i, x) == Taken(s, i, x) {
      assert i in t.instances <==> i in s.instances;
    }
    SameTaken(s, t);
    SameTasks(s, t);
    hide Tidy, BooksMatch, Grows, TakesNothing, LetsGoSettled, TasksFit;
  }

  lemma CrashedTaken(s: State, name: string)
    ensures forall i, x :: Taken(Crashed(s, name), i, x) <==> Taken(s, i, x) && i != name
  {
    var t := Crashed(s, name);
    forall i, x ensures Tasked(t.tasks, i, x) <==> Tasked(s.tasks, i, x) && i != name {
      if n :| n in s.tasks && s.tasks[n].owner == i && s.tasks[n].at == x {
        if i != name { assert n in t.tasks && t.tasks[n] == s.tasks[n]; }
      }
    }
    hide Tasked;
    forall i, x ensures Taken(t, i, x) <==> Taken(s, i, x) && i != name {
      assert i != name ==> (i in t.instances <==> i in s.instances);
    }
  }

  lemma CrashIsOnward(s: State, name: string)
    requires Tidy(s)
    ensures Onward(s, Crashed(s, name))
  {
    var t := Crashed(s, name);
    AckedGrows(s, t);
    CommitsStaySettled(s, t);
    CrashedTaken(s, name);
    hide BooksMatch, Grows, Taken, Open, BeforeBuffer, InOrder;
    assert TakesNothing(s, t) by {
      forall i, x | Taken(t, i, x) ensures i in t.instances { assert i in s.instances; }
    }
  }

  /** The steps of the buffers: everything else is onward. */
  predicate Moves(ev: Event) { ev.Assign? || ev.Fetch? || ev.Pull? }

  lemma StepIsOnward(s: State, ev: Event)
    requires Tidy(s) && !Moves(ev)
    ensures Onward(s, Step(s, ev))
  {
    NothingIsOnward(s);
    hide Tidy, Onward, AckStep, RejectStep, Advanced, Abandoned, Crashed, Published, Taken, Exists;
    match ev
    case Start(name) => if name !in s.instances { StartIsOnward(s, name); }
    case Send(name, p, decodes) => SentIsOnward(s, p, decodes);
    case Ack(name, at) => AckIsOnward(s, name, at);
    case Reject(name, at) => AckIsOnward(s, name, at);
    case Advance(n, p) => AdvanceIsOnward(s, n, p);
    case Abandon(n) => AbandonIsOnward(s, n);
    case Close(name) => if name in s.instances { CloseIsOnward(s, name); }
    case Crash(name) => CrashIsOnward(s, name);
  }

  lemma SentIsOnward(s: State, p: nat, decodes: bool)
    requires Tidy(s)
    ensures p in s.broker.log ==> Onward(s, Published(s, p, Content(s.log.messages, decodes)))
  {
    hide Tidy, Onward, Published;
    if p in s.broker.log { SendIsOnward(s, p, Content(s.log.messages, decodes)); }
  }

  lemma AckIsOnward(s: State, name: string, at: At)
    requires Tidy(s)
    ensures Onward(s, AckStep(s, name, at)) && Onward(s, RejectStep(s, name, at))
  {
    NothingIsOnward(s);
    hide Tidy, Onward;
    if name in s.instances && at in s.instances[name].inFlight {
      BeginsIsOnward(s, AckStep(s, name, at), name, at, Committing);
      BeginsIsOnward(s, RejectStep(s, name, at), name, at, Moving);
    }
  }

  lemma AdvanceIsOnward(s: State, n: nat, p: nat)
    requires Tidy(s)
    ensures Onward(s, Advanced(s, n, p))
  {
    NothingIsOnward(s);
    hide Tidy, Onward;
    if n in s.tasks && Exists(s.broker, s.tasks[n].at) {
      if s.tasks[n].work.Moving? { MoveIsOnward(s, n, p); } else { CommitIsOnward(s, n); }
    }
  }

  // ---- Steps of the buffers ----------------------------------------------------------

  /** Broker, record, tasks and the other instances stay; `name`'s deliveries do. */
  ghost predicate OneMoves(s: State, t: State, name: string) {
    && t.broker == s.broker && t.log == s.log && t.tasks == s.tasks && t.nextTask == s.nextTask
    && name in s.instances && name in t.instances && t.instances == s.instances[name := t.instances[name]]
    && t.instances[name].inFlight == s.instances[name].inFlight && t.instances[name].failed == s.instances[name].failed
  }

  lemma OneMovesTaken(s: State, t: State, name: string)
    requires OneMoves(s, t, name)
    ensures forall i, x :: Taken(t, i, x) == Taken(s, i, x)
  {
  }

  lemma OneMovesTidy(s: State, t: State, name: string)
    requires Tidy(s) && OneMoves(s, t, name) && InOrder(t.broker, t.instances[name])
    requires forall at :: BeforeBuffer(s.instances[name], at) ==> BeforeBuffer(t.instances[name], at)
    ensures Tidy(t)
  {
    OneMovesTaken(s, t, name);
    AckedGrows(s, t);
    SameTasks(s, t);
    hide BooksMatch, Grows, Taken, TasksFit, BeforeBuffer;
    forall i | i in t.instances ensures InOrder(t.broker, t.instances[i]) {
      if i != name { assert InOrder(s.broker, s.instances[i]); }
    }
    hide InOrder;
  }

  lemma AssignIsTidy(s: State, name: string, p: nat)
    requires Tidy(s) && CanAssign(s, name, p)
    ensures OneMoves(s, Assigned(s, name, p), name) && Tidy(Assigned(s, name, p))
  {
    var t := Assigned(s, name, p);
    assert InOrder(s.broker, s.instances[name]);
    assert s.broker.committed[p] <= |s.broker.log[p]|;
    hide BooksMatch, Taken, TakenFits, Open;
    OneMovesTidy(s, t, name);
  }

  lemma FetchIsTidy(s: State, name: string, p: nat)
    requires Tidy(s) && Fetched(s, name, p) != s
    ensures OneMoves(s, Fetched(s, name, p), name) && Tidy(Fetched(s, name, p))
  {
    var t := Fetched(s, name, p);
    assert InOrder(s.broker, s.instances[name]);
    hide BooksMatch, Taken, TakenFits, Open;
    FetchKeepsOrder(s, name, p);
    OneMovesTidy(s, t, name);
  }

  lemma FetchKeepsOrder(s: State, name: string, p: nat)
    requires name in s.instances && InOrder(s.broker, s.instances[name]) && Fetched(s, name, p) != s
    ensures var t := Fetched(s, name, p);
      && OneMoves(s, t, name) && InOrder(t.broker, t.instances[name])
      && forall at :: BeforeBuffer(s.instances[name], at) ==> BeforeBuffer(t.instances[name], at)
  {
  }

  /** The head of a buffer is in the log, and before the rest of its partition. */
  lemma HeadFits(s: State, name: string)
    requires Tidy(s) && CanPull(s, name)
    ensures var i, at := s.instances[name], s.instances[name].buffer[0];
      && Exists(s.broker, at) && InOrder(s.broker, i.(buffer := i.buffer[1..]))
      && BeforeBuffer(i.(buffer := i.buffer[1..]), at)
      && forall x :: BeforeBuffer(i, x) ==>
           BeforeBuffer(i.(buffer := i.buffer[1..]), x) && (x.0 == at.0 ==> x.1 < at.1)
  {
    var i := s.instances[name];
    assert InOrder(s.broker, i);
    hide TakenFits, Taken, Open;
    assert i.buffer[0].0 in s.broker.log && i.buffer[0].0 in s.broker.committed;
    hide BooksMatch;
    forall k | 0 <= k < |i.buffer| - 1 ensures i.buffer[1..][k] == i.buffer[k + 1] {}
  }

  /** A pull takes exactly the head of the buffer. */
  lemma PullTakes(s: State, name: string)
    requires Tidy(s) && CanPull(s, name)
    ensures var t, at := Pulled(s, name), s.instances[name].buffer[0];
      && t.broker == s.broker && t.log == s.log
      && t.instances.Keys == s.instances.Keys
      && (forall i :: i in s.instances && i != name ==> t.instances[i] == s.instances[i])
      && t.instances[name].position == s.instances[name].position
      && t.instances[name].buffer == s.instances[name].buffer[1..]
      && (forall i, x :: Taken(t, i, x) <==> Taken(s, i, x) || (i == name && x == at))
      && (t.tasks != s.tasks || t.nextTask != s.nextTask ==>
            && t.tasks == s.tasks[s.nextTask := Task(name, at, Committing)] && t.nextTask == s.nextTask + 1
            && !Open(s, at))
  {
    HeadFits(s, name);
    var at := s.instances[name].buffer[0];
    assert s.nextTask !in s.tasks;
    hide Tidy, BeforeBuffer, InOrder;
    AnotherTask(s.tasks, s.nextTask, Task(name, at, Committing));
    hide Tasked, Exists, ContentOf;
    var t := Pulled(s, name);
    forall i, x ensures Taken(t, i, x) <==> Taken(s, i, x) || (i == name && x == at) {
      assert i in t.instances <==> i in s.instances;
    }
  }

  lemma SameOrder(broker: Broker, i: Instance, j: Instance)
    requires InOrder(broker, i) && j.buffer == i.buffer && j.position == i.position
    ensures InOrder(broker, j)
  {
  }

  lemma SameBefore(i: Instance, j: Instance)
    requires j.buffer == i.buffer && j.position == i.position
    ensures forall x :: BeforeBuffer(i, x) == BeforeBuffer(j, x)
  {
  }

  lemma PullKeepsFits(s: State, name: string)
    requires Tidy(s) && CanPull(s, name)
    ensures TakenFits(Pulled(s, name))
  {
    var t, i := Pulled(s, name), s.instances[name];
    HeadFits(s, name);
    PullTakes(s, name);
    SameBefore(i.(buffer := i.buffer[1..]), t.instances[name]);
    hide Pulled, CanPull, Taken, BooksMatch, AllInOrder, TasksFit, InOrder, BeforeBuffer, Open, Exists;
    forall x | Taken(t, name, x) ensures BeforeBuffer(t.instances[name], x) {}
    forall j, x | Taken(t, j, x) ensures j in t.instances && BeforeBuffer(t.instances[j], x) {
      if j != name { assert t.instances[j] == s.instances[j]; }
    }
  }

  lemma PullKeepsOrder(s: State, name: string)
    requires Tidy(s) && CanPull(s, name)
    ensures AllInOrder(Pulled(s, name))
  {
    var t, i := Pulled(s, name), s.instances[name];
    HeadFits(s, name);
    PullTakes(s, name);
    SameOrder(s.broker, i.(buffer := i.buffer[1..]), t.instances[name]);
    hide BooksMatch, Taken, TakenFits, TasksFit, Open, Pulled, Exists, BeforeBuffer, InOrder;
    forall j | j in t.instances ensures InOrder(t.broker, t.instances[j]) {
      if j != name { assert InOrder(s.broker, s.instances[j]); }
    }
  }

  lemma PullKeepsBooks(s: State, name: string)
    requires Tidy(s) && CanPull(s, name)
    ensures BooksMatch(Pulled(s, name)) && TasksFit(Pulled(s, name))
  {
    var t := Pulled(s, name);
    PullTakes(s, name);
    SameBooks(s, t);
    SameOpen(s, t);
    hide BooksMatch, Taken, TakenFits, Open, Pulled, AllInOrder;
  }

  lemma PullIsTidy(s: State, name: string)
    requires Tidy(s) && CanPull(s, name)
    ensures Tidy(Pulled(s, name))
  {
    PullKeepsFits(s, name);
    PullKeepsOrder(s, name);
    PullKeepsBooks(s, name);
    hide Pulled, BooksMatch, TakenFits, AllInOrder, TasksFit;
  }

  /** Whatever anyone does, disciplined or not. */
  lemma StepKeepsTidy(s: State, ev: Event)
    requires Tidy(s)
    ensures Tidy(Step(s, ev))
  {
    hide Tidy, Onward;
    if !Moves(ev) {
      StepIsOnward(s, ev);
      OnwardKeepsTidy(s, Step(s, ev));
      hide Step;
    } else {
      match ev
      case Assign(name, p) => if CanAssign(s, name, p) { AssignIsTidy(s, name, p); }
      case Fetch(name, p) => if Fetched(s, name, p) != s { FetchIsTidy(s, name, p); }
      case Pull(name) => if CanPull(s, name) { PullIsTidy(s, name); }
      hide Assigned, Fetched, Pulled;
    }
  }

  // ---- With the discipline -----------------------------------------------------------

  /** Nothing before `at` in its partition is open. */
  ghost predicate Passable(s: State, at: At) { forall x: nat :: x < at.1 ==> !Open(s, (at.0, x)) }

  /** What an instance has taken stands behind settled messages only. */
  ghost predicate Behind(s: State) { forall i, at :: Taken(s, i, at) ==> Passable(s, at) }

  predicate Reached(s: State, name: string, at: At)
    requires name in s.instances
  {
    at in s.instances[name].buffer || Taken(s, name, at) || !Open(s, at)
  }

  /** Whatever lies before the fetch position is still in the buffer, taken, or settled. */
  ghost predicate AllReached(s: State) {
    forall i, p, x: nat :: i in s.instances && p in s.instances[i].position && x < s.instances[i].position[p] ==>
      Reached(s, i, (p, x))
  }

  /** Every offset below the committed one is settled. */
  ghost predicate CommitsSettled(s: State) {
    forall at :: Exists(s.broker, at) && at.1 < s.broker.committed[at.0] ==> Settled(s, at)
  }

  ghost predicate Sound(s: State) { Tidy(s) && Behind(s) && AllReached(s) && CommitsSettled(s) }

  /** Nothing settled is opened again, so what was passable stays so. */
  lemma StaysPassable(s: State, t: State, at: At)
    requires Grows(s, t) && Exists(s.broker, at) && Passable(s, at)
    ensures Passable(t, at)
  {
    forall x: nat | x < at.1 ensures !Open(t, (at.0, x)) {
      assert Exists(s.broker, (at.0, x));
    }
    hide Open;
  }

  lemma OnwardKeepsBehind(s: State, t: State)
    requires Tidy(s) && Behind(s) && Onward(s, t)
    ensures Behind(t)
  {
    hide Tidy, BooksMatch, Grows, SameBuffers, LetsGoSettled, TasksFit, Taken, Passable, Exists;
    forall i, at | Taken(t, i, at) ensures Passable(t, at) {
      assert Taken(s, i, at);
      TakenIsOld(s, i, at);
      StaysPassable(s, t, at);
    }
  }

  /** Where a position lies the log has been. */
  lemma FetchedExists(s: State, i: string, p: nat, x: nat)
    requires Tidy(s) && i in s.instances && p in s.instances[i].position && x < s.instances[i].position[p]
    ensures Exists(s.broker, (p, x))
  {
    assert InOrder(s.broker, s.instances[i]);
    hide Taken, TakenFits, TasksFit, Open;
  }

  lemma OnwardKeepsReached(s: State, t: State)
    requires Tidy(s) && AllReached(s) && Onward(s, t)
    ensures AllReached(t)
  {
    hide Tidy, BooksMatch, TakesNothing, TasksFit, Taken, Open, Exists;
    forall i, p, x: nat | i in t.instances && p in t.instances[i].position && x < t.instances[i].position[p]
      ensures Reached(t, i, (p, x))
    {
      assert i in s.instances && Reached(s, i, (p, x));
      FetchedExists(s, i, p, x);
    }
  }

  /** A commit goes one past a settled message that stands behind settled ones. */
  lemma CommitKeepsSettled(s: State, n: nat)
    requires Sound(s) && n in s.tasks && s.tasks[n].work.Committing?
    ensures CommitsSettled(Advanced(s, n, 0))
  {
    var at := s.tasks[n].at;
    TasksAreOld(s);
    assert Taken(s, s.tasks[n].owner, at) && Passable(s, at) && !Open(s, at);
    var t := Advanced(s, n, 0);
    hide Tidy, Behind, AllReached, Taken;
    forall x: At | Exists(t.broker, x) && x.1 < t.broker.committed[x.0] ensures Settled(t, x) {
      assert Exists(s.broker, x) && Settled(t, x) == Settled(s, x);
      if x.0 == at.0 {
        if x.1 < at.1 { assert !Open(s, (at.0, x.1)); }
      } else {
        assert x.1 < s.broker.committed[x.0];
      }
    }
  }

  lemma SameCommits(s: State, t: State)
    requires CommitsSettled(s) && Grows(s, t) && BooksMatch(s) && BooksMatch(t)
    requires t.broker.committed == s.broker.committed
    ensures CommitsSettled(t)
  {
    forall at: At | Exists(t.broker, at) && at.1 < t.broker.committed[at.0] ensures Settled(t, at) {
      assert at.1 < |s.broker.log[at.0]|;
      assert Exists(s.broker, at) && !Open(s, at);
    }
    hide BooksMatch, Settled;
  }

  lemma OnwardKeepsCommits(s: State, ev: Event)
    requires Sound(s) && !Moves(ev)
    ensures CommitsSettled(Step(s, ev))
  {
    if ev.Advance? && ev.task in s.tasks && s.tasks[ev.task].work.Committing? {
      CommitKeepsSettled(s, ev.task);
      hide Sound;
    } else {
      StepIsOnward(s, ev);
      CommittedStays(s, ev);
      hide Step, Behind, AllReached, TakenFits, AllInOrder, TasksFit, SameBuffers, TakesNothing, LetsGoSettled,
           BooksMatch, Grows, CommitsSettled;
      SameCommits(s, Step(s, ev));
    }
  }

  lemma CommittedStays(s: State, ev: Event)
    requires ev.Advance? && ev.task in s.tasks ==> s.tasks[ev.task].work.Moving?
    ensures Step(s, ev).broker.committed == s.broker.committed
  {
    hide Exists;
  }

  lemma OnwardKeeps(s: State, ev: Event)
    requires Sound(s) && !Moves(ev)
    ensures Sound(Step(s, ev))
  {
    StepIsOnward(s, ev);
    OnwardKeepsCommits(s, ev);
    hide Step, Tidy, Behind, AllReached, CommitsSettled, Onward;
    OnwardKeepsTidy(s, Step(s, ev));
    OnwardKeepsBehind(s, Step(s, ev));
    OnwardKeepsReached(s, Step(s, ev));
  }

  /** All that `t` has fetched of `p` and `s` had not is in the buffer, or settled. */
  ghost predicate ReachesNew(s: State, t: State, name: string)
    requires name in s.instances && name in t.instances
  {
    && (forall at :: at in s.instances[name].buffer ==> at in t.instances[name].buffer)
    && (forall p, x: nat :: p in t.instances[name].position && x < t.instances[name].position[p] ==>
          || (p in s.instances[name].position && x < s.instances[name].position[p])
          || (p, x) in t.instances[name].buffer || !Open(s, (p, x)))
  }

  /** Whoever moves only a position and a buffer takes nothing. */
  lemma OneMovesKeeps(s: State, t: State, name: string)
    requires Sound(s) && Tidy(t) && OneMoves(s, t, name) && ReachesNew(s, t, name)
    ensures Sound(t)
  {
    OneMovesReaches(s, t, name);
    OneMovesBehind(s, t, name);
    SameSettled(s, t);
    hide Tidy, Behind, AllReached, CommitsSettled;
  }

  lemma OneMovesBehind(s: State, t: State, name: string)
    requires Behind(s) && OneMoves(s, t, name)
    ensures Behind(t)
  {
    OneMovesTaken(s, t, name);
    SameOpen(s, t);
    hide Taken, Open, OneMoves;
  }

  lemma OneMovesReaches(s: State, t: State, name: string)
    requires AllReached(s) && OneMoves(s, t, name) && ReachesNew(s, t, name)
    ensures AllReached(t)
  {
    OneMovesTaken(s, t, name);
    SameOpen(s, t);
    hide Taken, Open;
    forall i, p, x: nat | i in t.instances && p in t.instances[i].position && x < t.instances[i].position[p]
      ensures Reached(t, i, (p, x))
    {
      if p in s.instances[i].position && x < s.instances[i].position[p] {
        assert Reached(s, i, (p, x));
      }
    }
    hide AllReached;
  }

  lemma AssignReachesNew(s: State, name: string, p: nat)
    requires CommitsSettled(s) && CanAssign(s, name, p)
    ensures ReachesNew(s, Assigned(s, name, p), name)
  {
    forall x: nat | x < s.broker.committed[p] ensures !Open(s, (p, x)) {
      assert Exists(s.broker, (p, x)) ==> Settled(s, (p, x));
    }
    hide Open, CommitsSettled;
  }

  lemma AssignKeeps(s: State, name: string, p: nat)
    requires Sound(s) && CanAssign(s, name, p)
    ensures Sound(Assigned(s, name, p))
  {
    AssignIsTidy(s, name, p);
    AssignReachesNew(s, name, p);
    hide Sound, Tidy, OneMoves, ReachesNew, Assigned, CanAssign;
    OneMovesKeeps(s, Assigned(s, name, p), name);
  }

  lemma FetchReachesNew(s: State, name: string, p: nat)
    requires name in s.instances && Fetched(s, name, p) != s
    ensures ReachesNew(s, Fetched(s, name, p), name)
  {
    var t, i := Fetched(s, name, p), s.instances[name];
    assert t.instances[name].buffer == i.buffer + [(p, i.position[p])];
    hide Open;
  }

  lemma FetchKeeps(s: State, name: string, p: nat)
    requires Sound(s) && Fetched(s, name, p) != s
    ensures Sound(Fetched(s, name, p))
  {
    FetchIsTidy(s, name, p);
    FetchReachesNew(s, name, p);
    hide Sound, Tidy, OneMoves, ReachesNew, Fetched;
    OneMovesKeeps(s, Fetched(s, name, p), name);
  }

  /** The head of a buffer has only settled messages before it, unless the pull overtakes. */
  lemma HeadIsPassable(s: State, name: string)
    requires Sound(s) && CanPull(s, name) && !Overtakes(s, name)
    ensures Passable(s, s.instances[name].buffer[0])
  {
    var i, at := s.instances[name], s.instances[name].buffer[0];
    assert InOrder(s.broker, i);
    hide Tidy, Behind, CommitsSettled, Taken, Open;
    forall x: nat | x < at.1 ensures !Open(s, (at.0, x)) {
      assert Reached(s, name, (at.0, x));
      assert (at.0, x) !in i.buffer;
    }
  }

  lemma PullKeepsBehind(s: State, name: string)
    requires Sound(s) && CanPull(s, name) && !Overtakes(s, name)
    ensures Behind(Pulled(s, name))
  {
    var t := Pulled(s, name);
    HeadIsPassable(s, name);
    PullTakes(s, name);
    SameOpen(s, t);
    hide Tidy, AllReached, CommitsSettled, Taken, Open, Pulled, Overtakes;
  }

  lemma BufferLosesHead(buffer: seq<At>)
    requires buffer != []
    ensures forall at :: at in buffer ==> at == buffer[0] || at in buffer[1..]
  {
    assert buffer == [buffer[0]] + buffer[1..];
  }

  lemma SameSettled(s: State, t: State)
    requires CommitsSettled(s) && t.broker == s.broker && t.log == s.log
    ensures CommitsSettled(t)
  {
  }

  lemma PullKeepsReached(s: State, name: string)
    requires Sound(s) && CanPull(s, name)
    ensures AllReached(Pulled(s, name))
  {
    var t := Pulled(s, name);
    PullTakes(s, name);
    SameOpen(s, t);
    BufferLosesHead(s.instances[name].buffer);
    hide Tidy, Behind, Pulled, Taken, CommitsSettled, Open;
    forall i, p, x: nat | i in t.instances && p in t.instances[i].position && x < t.instances[i].position[p]
      ensures Reached(t, i, (p, x))
    {
      assert i in s.instances && Reached(s, i, (p, x));
    }
  }

  lemma PullKeeps(s: State, name: string)
    requires Sound(s) && CanPull(s, name) && !Overtakes(s, name)
    ensures Sound(Pulled(s, name))
  {
    PullIsTidy(s, name);
    PullKeepsBehind(s, name);
    PullKeepsReached(s, name);
    PullTakes(s, name);
    hide Tidy, Behind, AllReached, CommitsSettled, Pulled;
    SameSettled(s, Pulled(s, name));
  }

  lemma StepKeeps(s: State, ev: Event)
    requires Sound(s) && Prompt(s, ev)
    ensures Sound(Step(s, ev))
  {
    hide Sound, Overtakes;
    if !Moves(ev) {
      OnwardKeeps(s, ev);
      hide Step;
    } else {
      match ev
      case Assign(name, p) => if CanAssign(s, name, p) { AssignKeeps(s, name, p); }
      case Fetch(name, p) => if Fetched(s, name, p) != s { FetchKeeps(s, name, p); }
      case Pull(name) => if CanPull(s, name) { PullKeeps(s, name); }
      hide Assigned, Fetched, Pulled;
    }
  }

  lemma {:induction false} RunKeeps(s: State, events: seq<Event>)
    requires Sound(s) && PromptRun(s, events)
    ensures Sound(Run(s, events))
    decreases |events|
  {
    if events != [] {
      StepKeeps(s, events[0]);
      hide Sound, Step, Prompt;
      RunKeeps(Step(s, events[0]), events[1..]);
    }
  }

  lemma InitialIsSound(s: State)
    requires Initial(s)
    ensures Sound(s)
  {
  }

  /** Whoever starts from the committed offset reads the newest copy of `m`. */
  predicate ToBeRead(s: State, m: nat)
    requires m in s.log.latest && Exists(s.broker, s.log.latest[m])
  {
    s.broker.committed[s.log.latest[m].0] <= s.log.latest[m].1
  }

  /** That copy was acked, or never decoded. */
  predicate Over(s: State, m: nat)
    requires m in s.log.latest && Exists(s.broker, s.log.latest[m])
  {
    s.log.latest[m] in s.log.acked || !ContentOf(s.broker, s.log.latest[m]).decodes
  }

  /**
   * Crash safety: after any run in which nobody pulls past an open message of the partition that
   * it has taken itself, the committed offset of a partition has passed only messages that were
   * acked, could not be decoded, or have a newer copy in the log; so the newest copy of an unacked
   * message is still to be read by whoever starts from the committed offset.
   */
  lemma CrashSafety(s: State, events: seq<Event>)
    requires Initial(s) && PromptRun(s, events)
    ensures CommitsSettled(Run(s, events))
    ensures var t := Run(s, events);
      forall m :: m in t.log.latest ==> Exists(t.broker, t.log.latest[m]) && (ToBeRead(t, m) || Over(t, m))
  {
    InitialIsSound(s);
    RunKeeps(s, events);
    hide Run, PromptRun, Exists, Behind, AllReached, TakenFits, AllInOrder, TasksFit;
  }

  // ---- Starting again ----------------------------------------------------------------

  function FetchAll(s: State, name: string, p: nat, k: nat): State
    decreases k
  {
    if k == 0 then s else Fetched(FetchAll(s, name, p, k - 1), name, p)
  }

  /** `t` is `s` with `p` read up to `to`, all of it in the buffer. */
  ghost predicate ReadTo(s: State, t: State, name: string, p: nat, to: nat) {
    && t.broker == s.broker && name in s.instances && name in t.instances
    && p in s.instances[name].position && p in t.instances[name].position && t.instances[name].position[p] == to
    && forall o: nat :: s.instances[name].position[p] <= o < to ==> (p, o) in t.instances[name].buffer
  }

  lemma {:induction false} FetchAllReads(s: State, name: string, p: nat, k: nat)
    requires name in s.instances && p in s.instances[name].position && p in s.broker.log
    requires s.instances[name].position[p] + k <= |s.broker.log[p]|
    ensures ReadTo(s, FetchAll(s, name, p, k), name, p, s.instances[name].position[p] + k)
    decreases k
  {
    if k > 0 {
      FetchAllReads(s, name, p, k - 1);
      FetchedReads(s, FetchAll(s, name, p, k - 1), name, p, s.instances[name].position[p] + k - 1);
    }
  }

  lemma FetchedReads(s: State, t: State, name: string, p: nat, to: nat)
    requires ReadTo(s, t, name, p, to) && p in s.broker.log && to < |s.broker.log[p]|
    ensures ReadTo(s, Fetched(t, name, p), name, p, to + 1)
  {
    var i := t.instances[name];
    assert Fetched(t, name, p).instances[name].buffer == i.buffer + [(p, to)];
  }

  /** The state of `name` once it is assigned `p` and has read it to its end. */
  function ReadAll(s: State, name: string, p: nat): State
    requires p in s.broker.log && p in s.broker.committed && s.broker.committed[p] <= |s.broker.log[p]|
  {
    FetchAll(Assigned(s, name, p), name, p, |s.broker.log[p]| - s.broker.committed[p])
  }

  /**
   * After any prompt run, whoever is assigned a partition and reads it to its end is handed every
   * message of it that is neither acked nor undecodable.
   */
  lemma RestartRedelivers(start: State, events: seq<Event>, name: string, m: nat)
    requires Initial(start) && PromptRun(start, events)
    requires var s := Run(start, events);
      m in s.log.latest && Exists(s.broker, s.log.latest[m]) && !Over(s, m) && CanAssign(s, name, s.log.latest[m].0)
    ensures var s, p := Run(start, events), Run(start, events).log.latest[m].0;
      && s.broker.committed[p] <= |s.broker.log[p]|
      && var t := ReadAll(s, name, p); name in t.instances && s.log.latest[m] in t.instances[name].buffer
  {
    CrashSafety(start, events);
    InitialIsSound(start);
    RunKeeps(start, events);
    var s := Run(start, events);
    assert ToBeRead(s, m) && BooksMatch(s) by { hide Run, PromptRun, Behind, AllReached, CommitsSettled; }
    hide Run, PromptRun, Initial, Sound, Over, CommitsSettled, BooksMatch;
    CommittedIsInLog(s, s.log.latest[m].0);
    ReadsFromCommitted(s, name, s.log.latest[m]);
  }

  lemma CommittedIsInLog(s: State, p: nat)
    requires BooksMatch(s) && p in s.broker.log
    ensures p in s.broker.committed && s.broker.committed[p] <= |s.broker.log[p]|
  {
  }

  lemma ReadsFromCommitted(s: State, name: string, at: At)
    requires CanAssign(s, name, at.0) && Exists(s.broker, at) && s.broker.committed[at.0] <= at.1
    ensures var t := ReadAll(s, name, at.0); name in t.instances && at in t.instances[name].buffer
  {
    var u := Assigned(s, name, at.0);
    FetchAllReads(u, name, at.0, |s.broker.log[at.0]| - s.broker.committed[at.0]);
    hide FetchAll;
  }
}
