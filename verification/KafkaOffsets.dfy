/**
 * Where the committed offset of a Kafka partition can move: only forwards as long as each instance
 * works on one message of a partition at a time, which is more than it takes to lose nothing.
 */
module KafkaOffsets {
  import opened Common
  import opened KafkaRuns
  import opened KafkaLoss

  /** The pull takes a second message of a partition while this instance works on a first. */
  ghost predicate Crowds(s: State, name: string)
    requires CanPull(s, name)
  {
    exists at :: Working(s, name, at) && at.0 == s.instances[name].buffer[0].0
  }

  /** Of each partition one message at a time, whether or not the one before failed. */
  ghost predicate OneByOne(s: State, ev: Event) { ev.Pull? && CanPull(s, ev.name) ==> !Crowds(s, ev.name) }

  ghost predicate OneByOneRun(s: State, events: seq<Event>)
    decreases |events|
  {
    events != [] ==> OneByOne(s, events[0]) && OneByOneRun(Step(s, events[0]), events[1..])
  }

  ghost predicate OneReader(s: State) {
    forall i, j, p ::
      i in s.instances && j in s.instances && p in s.instances[i].position && p in s.instances[j].position
      ==> i == j
  }

  predicate OneDelivery(i: Instance) {
    forall a, b :: a in i.inFlight && b in i.inFlight && a.0 == b.0 ==> a == b
  }

  predicate OneTask(tasks: map<nat, Task>) {
    forall m, n :: m in tasks && n in tasks && tasks[m].owner == tasks[n].owner && tasks[m].at.0 == tasks[n].at.0 ==>
      m == n
  }

  ghost predicate NotBoth(s: State) {
    forall n, a :: n in s.tasks && s.tasks[n].owner in s.instances && a in s.instances[s.tasks[n].owner].inFlight ==>
      a.0 != s.tasks[n].at.0
  }

  /** At most one message of a partition, and that in one place only. */
  ghost predicate OneWork(s: State) {
    (forall i :: i in s.instances ==> OneDelivery(s.instances[i])) && OneTask(s.tasks) && NotBoth(s)
  }

  predicate NotBelow(broker: Broker, at: At) { at.0 in broker.committed ==> broker.committed[at.0] <= at.1 }

  ghost predicate BuffersNotBelow(s: State) {
    forall i, k :: i in s.instances && 0 <= k < |s.instances[i].buffer| ==> NotBelow(s.broker, s.instances[i].buffer[k])
  }

  ghost predicate PositionsNotBelow(s: State) {
    forall i, p :: i in s.instances && p in s.instances[i].position ==>
      NotBelow(s.broker, (p, s.instances[i].position[p]))
  }

  ghost predicate WorkNotBelow(s: State) { forall i, at :: Working(s, i, at) ==> NotBelow(s.broker, at) }

  /** Nothing at hand is below the committed offset. */
  ghost predicate NothingBelow(s: State) { BuffersNotBelow(s) && PositionsNotBelow(s) && WorkNotBelow(s) }

  ghost predicate Steady(s: State) { Tidy(s) && OneReader(s) && OneWork(s) && NothingBelow(s) }

  /** A step moves no committed offset back. */
  ghost predicate Climbs(s: State, t: State) {
    forall p :: p in s.broker.committed ==> p in t.broker.committed && s.broker.committed[p] <= t.broker.committed[p]
  }

  /** Work only goes away, and nobody reads a partition who did not. */
  ghost predicate Shrinks(s: State, t: State) {
    && (forall i :: i in t.instances && t.instances[i].inFlight != {} ==>
          i in s.instances && t.instances[i].inFlight <= s.instances[i].inFlight)
    && (forall n :: n in t.tasks ==>
          n in s.tasks && t.tasks[n].owner == s.tasks[n].owner && t.tasks[n].at == s.tasks[n].at)
  }

  lemma ShrinksWorking(s: State, t: State)
    requires Shrinks(s, t)
    ensures forall i, at :: Working(t, i, at) ==> Working(s, i, at)
  {
    forall i, at | Tasked(t.tasks, i, at) ensures Tasked(s.tasks, i, at) {
      var n :| n in t.tasks && t.tasks[n].owner == i && t.tasks[n].at == at;
      assert n in s.tasks;
    }
  }

  lemma ShrinksKeepsOneWork(s: State, t: State)
    requires OneWork(s) && Shrinks(s, t)
    ensures OneWork(t)
  {
  }

  predicate Begun(ev: Event) { ev.Pull? || ev.Ack? || ev.Reject? }

  lemma OthersShrink(s: State, ev: Event)
    requires !Begun(ev)
    ensures Shrinks(s, Step(s, ev))
  {
    hide Exists;
  }

  lemma AnotherKeepsOneTask(tasks: map<nat, Task>, n: nat, task: Task)
    requires OneTask(tasks) && n !in tasks
    requires forall m :: m in tasks && tasks[m].owner == task.owner ==> tasks[m].at.0 != task.at.0
    ensures OneTask(tasks[n := task])
  {
  }

  lemma BegunKeepsOneWork(s: State, t: State, name: string, at: At, work: Work)
    requires OneWork(s) && Begins(s, t, name, at, work) && s.nextTask !in s.tasks
    ensures OneWork(t)
  {
    AnotherKeepsOneTask(s.tasks, s.nextTask, Task(name, at, work));
    hide OneTask;
    forall i | i in t.instances ensures OneDelivery(t.instances[i]) {
      assert OneDelivery(s.instances[i]);
    }
    assert forall a :: a in t.instances[name].inFlight ==> a.0 != at.0;
    hide OneDelivery;
  }

  lemma BegunWorking(s: State, t: State, name: string, at: At, work: Work)
    requires Begins(s, t, name, at, work) && s.nextTask !in s.tasks
    ensures forall i, x :: Working(t, i, x) ==> Working(s, i, x)
  {
    AnotherTask(s.tasks, s.nextTask, Task(name, at, work));
    hide Tasked;
    forall i, x | Working(t, i, x) ensures Working(s, i, x) {
      assert Tasked(t.tasks, i, x) <==> Tasked(s.tasks, i, x) || (i == name && x == at);
    }
  }

  /** Neither offsets nor buffers nor positions change, and no work is added. */
  lemma SameOffsetsKeep(s: State, t: State)
    requires OneReader(s) && NothingBelow(s) && t.broker.committed == s.broker.committed && SameBuffers(s, t)
    requires forall i, at :: Working(t, i, at) ==> Working(s, i, at)
    ensures OneReader(t) && NothingBelow(t)
  {
    hide Working;
    assert OneReader(t) by {
      forall i, p | i in t.instances && p in t.instances[i].position
        ensures i in s.instances && p in s.instances[i].position {}
    }
    hide OneReader;
  }

  lemma AssignKeepsSteady(s: State, name: string, p: nat)
    requires OneReader(s) && NothingBelow(s) && CanAssign(s, name, p)
    requires forall i, at :: Working(Assigned(s, name, p), i, at) ==> Working(s, i, at)
    ensures OneReader(Assigned(s, name, p)) && NothingBelow(Assigned(s, name, p))
  {
    hide Working;
  }

  lemma FetchKeepsSteady(s: State, name: string, p: nat)
    requires OneReader(s) && NothingBelow(s) && Fetched(s, name, p) != s
    requires forall i, at :: Working(Fetched(s, name, p), i, at) ==> Working(s, i, at)
    ensures OneReader(Fetched(s, name, p)) && NothingBelow(Fetched(s, name, p))
  {
    hide Working;
    var t, i := Fetched(s, name, p), s.instances[name];
    assert OneReader(t) by { hide NothingBelow; }
    hide OneReader;
    assert NotBelow(s.broker, (p, i.position[p]));
    assert NotBelow(s.broker, (p, i.position[p] + 1));
  }

  /** A pull that crowds nobody adds the only work of its partition. */
  lemma PullKeepsOneWork(s: State, name: string)
    requires Tidy(s) && OneWork(s) && CanPull(s, name) && !Crowds(s, name)
    ensures OneWork(Pulled(s, name))
  {
    HeadFits(s, name);
    UncrowdedIsAlone(s, name);
    var at := s.instances[name].buffer[0];
    assert s.nextTask !in s.tasks;
    hide Tidy, BeforeBuffer, InOrder, Crowds, OneWork;
    if ContentOf(s.broker, at).decodes {
      DeliveryKeepsOneWork(s, name, at);
    } else {
      DiscardKeepsOneWork(s, name, at);
    }
  }

  /** `name` works on nothing of `p`. */
  predicate AloneIn(s: State, name: string, p: nat) {
    && (name in s.instances ==> forall x :: x in s.instances[name].inFlight ==> x.0 != p)
    && (forall n :: n in s.tasks && s.tasks[n].owner == name ==> s.tasks[n].at.0 != p)
  }

  lemma UncrowdedIsAlone(s: State, name: string)
    requires CanPull(s, name) && !Crowds(s, name)
    ensures AloneIn(s, name, s.instances[name].buffer[0].0)
  {
    forall x | x in s.instances[name].inFlight ensures x.0 != s.instances[name].buffer[0].0 {
      assert Working(s, name, x);
    }
    forall n | n in s.tasks && s.tasks[n].owner == name ensures s.tasks[n].at.0 != s.instances[name].buffer[0].0 {
      assert Working(s, name, s.tasks[n].at);
    }
  }

  lemma AloneHasNoWork(s: State, name: string, p: nat)
    requires AloneIn(s, name, p)
    ensures forall x :: Working(s, name, x) ==> x.0 != p
  {
  }

  lemma DeliveryKeepsOneWork(s: State, name: string, at: At)
    requires OneWork(s) && name in s.instances && s.instances[name].buffer != [] && AloneIn(s, name, at.0)
    ensures var i := s.instances[name];
      OneWork(With(s, name, i.(buffer := i.buffer[1..], inFlight := i.inFlight + {at})))
  {
    var i := s.instances[name];
    var t := With(s, name, i.(buffer := i.buffer[1..], inFlight := i.inFlight + {at}));
    hide OneTask;
    forall j | j in t.instances ensures OneDelivery(t.instances[j]) {
      assert OneDelivery(s.instances[j]);
    }
    hide OneDelivery;
  }

  lemma DiscardKeepsOneWork(s: State, name: string, at: At)
    requires OneWork(s) && name in s.instances && s.instances[name].buffer != [] && AloneIn(s, name, at.0)
    requires s.nextTask !in s.tasks
    ensures var i := s.instances[name];
      OneWork(Issue(With(s, name, i.(buffer := i.buffer[1..])), Task(name, at, Committing)))
  {
    AnotherKeepsOneTask(s.tasks, s.nextTask, Task(name, at, Committing));
    hide OneTask;
    var i := s.instances[name];
    var t := Issue(With(s, name, i.(buffer := i.buffer[1..])), Task(name, at, Committing));
    forall j | j in t.instances ensures OneDelivery(t.instances[j]) {
      assert OneDelivery(s.instances[j]);
    }
    hide OneDelivery;
  }

  /** Broker and positions stay, and `name`'s buffer loses its head. */
  predicate LosesHead(s: State, t: State, name: string) {
    && t.broker == s.broker && t.instances.Keys == s.instances.Keys && name in s.instances
    && s.instances[name].buffer != []
    && forall i :: i in s.instances && i in t.instances ==>
         && t.instances[i].position == s.instances[i].position
         && t.instances[i].buffer == if i == name then s.instances[i].buffer[1..] else s.instances[i].buffer
  }

  lemma LosesHeadReaders(s: State, t: State, name: string)
    requires OneReader(s) && LosesHead(s, t, name)
    ensures OneReader(t)
  {
    forall i, p | i in t.instances && p in t.instances[i].position
      ensures i in s.instances && p in s.instances[i].position {}
  }

  lemma LosesHeadOffsets(s: State, t: State, name: string)
    requires BuffersNotBelow(s) && PositionsNotBelow(s) && LosesHead(s, t, name)
    ensures BuffersNotBelow(t) && PositionsNotBelow(t)
  {
    SameNotBelow(s, t);
    hide NotBelow;
    forall i, k | i in t.instances && 0 <= k < |t.instances[i].buffer|
      ensures NotBelow(t.broker, t.instances[i].buffer[k])
    {
      assert t.instances[i].buffer[k] == s.instances[i].buffer[if i == name then k + 1 else k];
    }
  }

  lemma PullLosesHead(s: State, name: string)
    requires Tidy(s) && CanPull(s, name)
    ensures LosesHead(s, Pulled(s, name), name)
  {
    PullTakes(s, name);
    hide Tidy, Taken, Pulled;
  }

  lemma PullWorkNotBelow(s: State, name: string)
    requires Tidy(s) && BuffersNotBelow(s) && WorkNotBelow(s) && CanPull(s, name)
    ensures WorkNotBelow(Pulled(s, name))
  {
    PullLosesHead(s, name);
    PullWorking(s, name);
    SameNotBelow(s, Pulled(s, name));
    assert NotBelow(s.broker, s.instances[name].buffer[0]);
    hide Tidy, BuffersNotBelow, Pulled, NotBelow, Working;
  }

  lemma PullKeepsNothingBelow(s: State, name: string)
    requires Tidy(s) && OneReader(s) && NothingBelow(s) && CanPull(s, name)
    ensures OneReader(Pulled(s, name)) && NothingBelow(Pulled(s, name))
  {
    hide Tidy, Pulled, WorkNotBelow, OneReader, LosesHead, BuffersNotBelow, PositionsNotBelow;
    PullLosesHead(s, name);
    PullWorkNotBelow(s, name);
    LosesHeadReaders(s, Pulled(s, name), name);
    LosesHeadOffsets(s, Pulled(s, name), name);
  }

  lemma SameNotBelow(s: State, t: State)
    requires t.broker == s.broker
    ensures forall at :: NotBelow(t.broker, at) == NotBelow(s.broker, at)
  {
  }

  lemma PullWorking(s: State, name: string)
    requires Tidy(s) && CanPull(s, name)
    ensures forall i, x :: Working(Pulled(s, name), i, x) ==>
      Working(s, i, x) || (i == name && x == s.instances[name].buffer[0])
  {
    HeadFits(s, name);
    var at := s.instances[name].buffer[0];
    assert s.nextTask !in s.tasks;
    hide Tidy, BeforeBuffer, InOrder;
    AnotherTask(s.tasks, s.nextTask, Task(name, at, Committing));
    hide Tasked, Exists, ContentOf;
  }

  /** A commit goes up, and no further than what else is at hand. */
  lemma CommitKeepsSteady(s: State, n: nat)
    requires Steady(s) && n in s.tasks && s.tasks[n].work.Committing?
    ensures var t := Advanced(s, n, 0); OneReader(t) && NothingBelow(t) && Climbs(s, t)
  {
    TasksAreOld(s);
    TaskFits(s, n);
    CommitEffect(s, n);
    CommitWorkNotBelow(s, n);
    hide Advanced, WorkNotBelow, Tidy, OneWork, NotBelow, BeforeBuffer, BuffersNotBelow, PositionsNotBelow, Climbs,
         OneReader;
    CommitClimbs(s, s.tasks[n].at);
    CommitOffsets(s, n);
    SameReaders(s, Advanced(s, n, 0));
  }

  lemma CommitEffect(s: State, n: nat)
    requires n in s.tasks && s.tasks[n].work.Committing? && Exists(s.broker, s.tasks[n].at)
    ensures Advanced(s, n, 0) == s.(broker := Committed(s.broker, s.tasks[n].at), tasks := s.tasks - {n})
  {
  }

  lemma CommitClimbs(s: State, at: At)
    requires NotBelow(s.broker, at)
    ensures forall t: State :: t.broker == Committed(s.broker, at) ==> Climbs(s, t)
  {
  }

  lemma SameReaders(s: State, t: State)
    requires OneReader(s) && t.instances == s.instances
    ensures OneReader(t)
  {
  }

  lemma CommitWorkNotBelow(s: State, n: nat)
    requires Steady(s) && n in s.tasks && s.tasks[n].work.Committing?
    ensures WorkNotBelow(Advanced(s, n, 0))
  {
    TasksAreOld(s);
    CommitEffect(s, n);
    CommitIsAlone(s, n);
    CommitWorking(s, n);
    OthersNotBelow(s, s.tasks[n].at);
    hide Advanced, Tidy, OneReader, OneWork, NotBelow, BuffersNotBelow, PositionsNotBelow, Working, Exists;
  }

  lemma CommitOffsets(s: State, n: nat)
    requires Tidy(s) && OneReader(s) && BuffersNotBelow(s) && PositionsNotBelow(s) && n in s.tasks
    requires s.tasks[n].owner in s.instances && BeforeBuffer(s.instances[s.tasks[n].owner], s.tasks[n].at)
    ensures var t := s.(broker := Committed(s.broker, s.tasks[n].at), tasks := s.tasks - {n});
      BuffersNotBelow(t) && PositionsNotBelow(t)
  {
    var t := s.(broker := Committed(s.broker, s.tasks[n].at), tasks := s.tasks - {n});
    OnlyOwner(s, n);
    OthersNotBelow(s, s.tasks[n].at);
    hide Tidy, OneReader, NotBelow;
    forall i, k | i in t.instances && 0 <= k < |t.instances[i].buffer|
      ensures NotBelow(t.broker, t.instances[i].buffer[k])
    {
      assert NotBelow(s.broker, s.instances[i].buffer[k]);
    }
    forall i, p | i in t.instances && p in t.instances[i].position
      ensures NotBelow(t.broker, (p, t.instances[i].position[p]))
    {
      assert NotBelow(s.broker, (p, s.instances[i].position[p]));
    }
  }

  lemma CommitWorking(s: State, n: nat)
    ensures forall i, x :: Working(Advanced(s, n, 0), i, x) ==> Working(s, i, x)
  {
    OthersShrink(s, Advance(n, 0));
    hide Shrinks, Advanced;
    ShrinksWorking(s, Step(s, Advance(n, 0)));
    hide Working;
  }

  lemma TaskFits(s: State, n: nat)
    requires Tidy(s) && NothingBelow(s) && n in s.tasks
    ensures s.tasks[n].owner in s.instances && BeforeBuffer(s.instances[s.tasks[n].owner], s.tasks[n].at)
    ensures NotBelow(s.broker, s.tasks[n].at)
  {
    hide BooksMatch, AllInOrder, TasksFit, BeforeBuffer;
    assert Working(s, s.tasks[n].owner, s.tasks[n].at) && Taken(s, s.tasks[n].owner, s.tasks[n].at);
  }

  /** What a commit of `at` leaves above the offset: other partitions, and what comes after. */
  lemma OthersNotBelow(s: State, at: At)
    ensures forall x :: NotBelow(s.broker, x) && (x.0 == at.0 ==> at.1 < x.1) ==> NotBelow(Committed(s.broker, at), x)
  {
  }

  /** Only the owner of a task has its partition. */
  lemma OnlyOwner(s: State, n: nat)
    requires Tidy(s) && OneReader(s) && n in s.tasks
    ensures var p := s.tasks[n].at.0;
      && (forall i :: i in s.instances && p in s.instances[i].position ==> i == s.tasks[n].owner)
      && (forall i, k :: i in s.instances && 0 <= k < |s.instances[i].buffer| && s.instances[i].buffer[k].0 == p ==>
            i == s.tasks[n].owner)
      && (forall i, x :: Working(s, i, x) && x.0 == p ==> i == s.tasks[n].owner)
  {
    TasksAreOld(s);
    hide BooksMatch, TasksFit, Open, Exists;
    var p := s.tasks[n].at.0;
    assert BeforeBuffer(s.instances[s.tasks[n].owner], s.tasks[n].at);
    forall i, k | i in s.instances && 0 <= k < |s.instances[i].buffer| && s.instances[i].buffer[k].0 == p
      ensures i == s.tasks[n].owner
    {
      assert InOrder(s.broker, s.instances[i]);
    }
    forall i, x | Working(s, i, x) && x.0 == p ensures i == s.tasks[n].owner {
      assert Taken(s, i, x);
    }
  }

  /** Once its commit is done, nothing of the partition is being worked on. */
  lemma CommitIsAlone(s: State, n: nat)
    requires Steady(s) && n in s.tasks && s.tasks[n].work.Committing?
    ensures forall i, x :: Working(Advanced(s, n, 0), i, x) ==> x.0 != s.tasks[n].at.0
  {
    TasksAreOld(s);
    OnlyOwner(s, n);
    CommitWorking(s, n);
    CommitEffect(s, n);
    OwnerIsAlone(s, n);
    hide Tidy, OneReader, OneWork, NothingBelow, Advanced, Working, AloneIn;
    AloneHasNoWork(Advanced(s, n, 0), s.tasks[n].owner, s.tasks[n].at.0);
  }

  lemma OwnerIsAlone(s: State, n: nat)
    requires OneWork(s) && n in s.tasks
    ensures AloneIn(s.(broker := Committed(s.broker, s.tasks[n].at), tasks := s.tasks - {n}),
                    s.tasks[n].owner, s.tasks[n].at.0)
  {
  }

  // ---- Every run ---------------------------------------------------------------------

  lemma StepKeepsOneWork(s: State, ev: Event)
    requires Tidy(s) && OneWork(s) && OneByOne(s, ev)
    ensures OneWork(Step(s, ev))
  {
    assert s.nextTask !in s.tasks;
    hide Tidy, OneWork, Crowds;
    if !Begun(ev) {
      OthersShrink(s, ev);
      hide Step, Shrinks;
      ShrinksKeepsOneWork(s, Step(s, ev));
    } else {
      match ev
      case Pull(name) => if CanPull(s, name) { PullKeepsOneWork(s, name); } hide AckStep, RejectStep;
      case Ack(name, at) =>
        if name in s.instances && at in s.instances[name].inFlight {
          BegunKeepsOneWork(s, AckStep(s, name, at), name, at, Committing);
        }
      case Reject(name, at) =>
        if name in s.instances && at in s.instances[name].inFlight {
          BegunKeepsOneWork(s, RejectStep(s, name, at), name, at, Moving);
        }
    }
  }

  lemma StepWorking(s: State, ev: Event)
    requires Tidy(s) && !ev.Pull?
    ensures forall i, at :: Working(Step(s, ev), i, at) ==> Working(s, i, at)
  {
    assert s.nextTask !in s.tasks;
    hide Tidy, Working;
    if !Begun(ev) {
      OthersShrink(s, ev);
      hide Step, Shrinks;
      ShrinksWorking(s, Step(s, ev));
    } else {
      match ev
      case Ack(name, at) =>
        if name in s.instances && at in s.instances[name].inFlight {
          BegunWorking(s, AckStep(s, name, at), name, at, Committing);
        }
      case Reject(name, at) =>
        if name in s.instances && at in s.instances[name].inFlight {
          BegunWorking(s, RejectStep(s, name, at), name, at, Moving);
        }
    }
  }

  predicate Commits(s: State, ev: Event) { ev.Advance? && ev.task in s.tasks && s.tasks[ev.task].work.Committing? }

  lemma StepKeepsOffsets(s: State, ev: Event)
    requires Steady(s)
    ensures OneReader(Step(s, ev)) && NothingBelow(Step(s, ev)) && Climbs(s, Step(s, ev))
  {
    if Commits(s, ev) {
      CommitKeepsSteady(s, ev.task);
      hide Steady;
    } else if ev.Pull? {
      if CanPull(s, ev.name) {
        PullKeepsNothingBelow(s, ev.name);
        PullTakes(s, ev.name);
      }
      hide Steady, Pulled;
    } else {
      CommittedStays(s, ev);
      StepWorking(s, ev);
      hide OneWork, Working;
      if Moves(ev) {
        match ev
        case Assign(name, p) =>
          hide Tidy;
          if CanAssign(s, name, p) { AssignKeepsSteady(s, name, p); }
          hide OneReader, NothingBelow;
        case Fetch(name, p) =>
          hide Tidy;
          if Fetched(s, name, p) != s { FetchKeepsSteady(s, name, p); }
          hide OneReader, NothingBelow;
      } else {
        StepIsOnward(s, ev);
        hide Step, Tidy, BooksMatch, Grows, TakesNothing, LetsGoSettled, TasksFit, SameBuffers, OneReader, NothingBelow;
        SameOffsetsKeep(s, Step(s, ev));
      }
    }
  }

  lemma StepKeepsSteady(s: State, ev: Event)
    requires Steady(s) && OneByOne(s, ev)
    ensures Steady(Step(s, ev)) && Climbs(s, Step(s, ev))
  {
    StepKeepsTidy(s, ev);
    StepKeepsOneWork(s, ev);
    StepKeepsOffsets(s, ev);
    hide Step, Tidy, OneWork, OneReader, NothingBelow, Climbs;
  }

  lemma {:induction false} RunKeepsSteady(s: State, events: seq<Event>)
    requires Steady(s) && OneByOneRun(s, events)
    ensures Steady(Run(s, events)) && Climbs(s, Run(s, events))
    decreases |events|
  {
    hide Step, Steady, OneByOne;
    if events != [] {
      StepKeepsSteady(s, events[0]);
      RunKeepsSteady(Step(s, events[0]), events[1..]);
    }
  }

  lemma InitialIsSteady(s: State)
    requires Initial(s)
    ensures Steady(s)
  {
    InitialIsSound(s);
    hide Sound, Tidy;
  }

  /** Of each partition one message at a time: no committed offset ever moves back, crashes and failures included. */
  lemma CommittedNeverFalls(start: State, events: seq<Event>, more: seq<Event>, p: nat)
    requires Initial(start) && OneByOneRun(start, events) && OneByOneRun(Run(start, events), more)
    requires p in start.broker.committed
    ensures var s, t := Run(start, events), Run(Run(start, events), more);
      p in s.broker.committed && p in t.broker.committed && s.broker.committed[p] <= t.broker.committed[p]
  {
    InitialIsSteady(start);
    RunKeepsSteady(start, events);
    RunKeepsSteady(Run(start, events), more);
    hide Run, OneByOneRun, Steady, Initial;
  }

  // ---- One by one is more than prompt ------------------------------------------------

  /** The first message is acked; before its commit the second is pulled and acked too. */
  function BothAcked(s: State, p: nat): State {
    Step(Step(Step(s, Ack("a", (p, 0))), Pull("a")), Ack("a", (p, 1)))
  }

  /** What tasks `n` and `n + 1` have left to do. */
  predicate TwoCommits(s: State, p: nat, n: nat) {
    && s.tasks == map[n := Task("a", (p, 0), Committing), n + 1 := Task("a", (p, 1), Committing)]
    && Exists(s.broker, (p, 0)) && Exists(s.broker, (p, 1))
  }

  /** The two commits take the offset of `p` to 2 and then back to 1. */
  predicate FallsBack(s: State, p: nat, n: nat) {
    var t := Step(s, Advance(n + 1, 0));
    var u := Step(t, Advance(n, 0));
    && p in t.broker.committed && t.broker.committed[p] == 2
    && p in u.broker.committed && u.broker.committed[p] == 1
  }

  lemma LaterCommitFirst(s: State, p: nat, n: nat)
    requires TwoCommits(s, p, n)
    ensures FallsBack(s, p, n)
  {
    var t := Advanced(s, n + 1, 0);
    assert n in t.tasks && t.tasks[n] == Task("a", (p, 0), Committing) && Exists(t.broker, (p, 0));
  }

  /**
   * A prompt consumer need not go one by one: an acked message may be overtaken before it is
   * committed. Nothing is lost, but if the later commit comes first the offset falls back.
   */
  lemma PromptMayFall(s: State, p: nat)
    requires Initial(s) && p in s.broker.log
    ensures var t := Run(s, FirstOfTwo(p));
      var acked := Step(t, Ack("a", (p, 0)));
      && CanPull(acked, "a") && Prompt(acked, Pull("a")) && Crowds(acked, "a")
      && FallsBack(BothAcked(t, p), p, t.nextTask)
  {
    FirstIsHanded(s, p);
    AfterFirstFacts(s, p);
    hide *;
    AcksFirst(AfterFirst(s, p), p);
    FallsAfterBoth(AfterFirst(s, p), p);
  }

  lemma FallsAfterBoth(s: State, p: nat)
    requires s.instances == Reader(p, [(p, 1)], {(p, 0)}, 2) && s.tasks == map[]
    requires Exists(s.broker, (p, 0)) && Exists(s.broker, (p, 1)) && ContentOf(s.broker, (p, 1)).decodes
    ensures FallsBack(BothAcked(s, p), p, s.nextTask)
  {
    hide *;
    AcksFirst(s, p);
    AcksSecond(Step(s, Ack("a", (p, 0))), p, s.nextTask);
    BothAckedIs(s, p);
    LaterCommitFirst(BothAcked(s, p), p, s.nextTask);
  }

  lemma AfterFirstFacts(s: State, p: nat)
    requires Initial(s) && p in s.broker.log
    ensures var t := AfterFirst(s, p);
      && t.instances == Reader(p, [(p, 1)], {(p, 0)}, 2) && t.tasks == map[] && t.nextTask == s.nextTask
      && Exists(t.broker, (p, 0)) && Exists(t.broker, (p, 1)) && ContentOf(t.broker, (p, 1)).decodes
  {
  }

  lemma BothAckedIs(s: State, p: nat)
    ensures BothAcked(s, p) == Step(Step(Step(s, Ack("a", (p, 0))), Pull("a")), Ack("a", (p, 1)))
  {
    hide Step;
  }

  lemma AcksFirst(s: State, p: nat)
    requires s.instances == Reader(p, [(p, 1)], {(p, 0)}, 2) && s.tasks == map[] && Exists(s.broker, (p, 0))
    ensures var t, n := Step(s, Ack("a", (p, 0))), s.nextTask;
      && t.instances == Reader(p, [(p, 1)], {}, 2) && t.tasks == map[n := Task("a", (p, 0), Committing)]
      && t.nextTask == n + 1 && t.broker == s.broker
      && CanPull(t, "a") && Prompt(t, Pull("a")) && Crowds(t, "a")
  {
    var t, n := AckStep(s, "a", (p, 0)), s.nextTask;
    var i := s.instances["a"].(inFlight := {});
    assert {(p, 0)} - {(p, 0)} == {};
    assert s.instances["a" := i] == map["a" := i];
    assert t.tasks == map[n := Task("a", (p, 0), Committing)];
    assert Working(t, "a", (p, 0)) by { assert n in t.tasks; }
    assert !Open(t, (p, 0));
  }

  lemma AcksSecond(s: State, p: nat, n: nat)
    requires s.instances == Reader(p, [(p, 1)], {}, 2) && s.tasks == map[n := Task("a", (p, 0), Committing)]
    requires s.nextTask == n + 1 && Exists(s.broker, (p, 0)) && Exists(s.broker, (p, 1))
    requires ContentOf(s.broker, (p, 1)).decodes
    ensures TwoCommits(Step(Step(s, Pull("a")), Ack("a", (p, 1))), p, n)
  {
    var t := Pulled(s, "a");
    assert t.tasks == s.tasks && t.nextTask == n + 1 && t.broker == s.broker && (p, 1) in t.instances["a"].inFlight;
    hide Pulled;
    var u := AckStep(t, "a", (p, 1));
    assert u.tasks == map[n := Task("a", (p, 0), Committing)][n + 1 := Task("a", (p, 1), Committing)];
  }

  // ---- A closed instance -------------------------------------------------------------

  /** A closed instance sends and delivers nothing any more, and what it has in flight only shrinks. */
  lemma ClosedIsQuiet(s: State, name: string, events: seq<Event>)
    requires name in s.instances && Crash(name) !in events
    ensures var t := Run(Step(s, Close(name)), events);
      && name in t.instances && t.instances[name].inFlight <= s.instances[name].inFlight
      && Step(t, Pull(name)) == t && forall p, decodes :: Step(t, Send(name, p, decodes)) == t
  {
    StaysClosed(Step(s, Close(name)), name, events);
    hide Run, Published;
  }

  lemma {:induction false} StaysClosed(s: State, name: string, events: seq<Event>)
    requires name in s.instances && s.instances[name].closing && Crash(name) !in events
    ensures var t := Run(s, events);
      name in t.instances && t.instances[name].closing && t.instances[name].inFlight <= s.instances[name].inFlight
    decreases |events|
  {
    if events != [] {
      StepStaysClosed(s, name, events[0]);
      hide Step;
      StaysClosed(Step(s, events[0]), name, events[1..]);
    }
  }

  lemma StepStaysClosed(s: State, name: string, ev: Event)
    requires name in s.instances && s.instances[name].closing && ev != Crash(name)
    ensures var t := Step(s, ev);
      name in t.instances && t.instances[name].closing && t.instances[name].inFlight <= s.instances[name].inFlight
  {
    hide Committed;
  }
}
