/**
 * When a Kafka consumer loses a message: exactly when it pulls past an open message of the same
 * partition that it has taken. The condition, and the loss itself from an empty log.
 */
module KafkaLoss {
  import opened Common
  import opened KafkaRuns

  /** What settles the head of `name`'s buffer once it is pulled: its commit, after an ack if it is delivered. */
  function Finish(s: State, name: string): seq<Event>
    requires CanPull(s, name) && Exists(s.broker, s.instances[name].buffer[0])
  {
    var at := s.instances[name].buffer[0];
    if ContentOf(s.broker, at).decodes then [Ack(name, at), Advance(s.nextTask, 0)] else [Advance(s.nextTask, 0)]
  }

  lemma PullWorks(s: State, name: string)
    requires Tidy(s) && CanPull(s, name)
    ensures Exists(s.broker, s.instances[name].buffer[0])
    ensures var at, t := s.instances[name].buffer[0], Pulled(s, name);
      if ContentOf(s.broker, at).decodes
      then name in t.instances && at in t.instances[name].inFlight && t.nextTask == s.nextTask
      else s.nextTask in t.tasks && t.tasks[s.nextTask] == Task(name, at, Committing)
  {
    HeadFits(s, name);
    hide Tidy, InOrder, BeforeBuffer;
  }

  lemma AckCommits(s: State, name: string, at: At)
    requires name in s.instances && at in s.instances[name].inFlight && Exists(s.broker, at)
    ensures var t := Run(s, [Ack(name, at), Advance(s.nextTask, 0)]);
      t.broker == Committed(s.broker, at) && t.log == s.log.(acked := s.log.acked + {at})
  {
    var n := s.nextTask;
    RunOfTwo(s, Ack(name, at), Advance(n, 0));
    hide Run;
    var v := AckStep(s, name, at);
    assert Step(s, Ack(name, at)) == v && v.broker == s.broker && v.log == s.log.(acked := s.log.acked + {at});
    assert n in v.tasks && v.tasks[n] == Task(name, at, Committing);
    hide AckStep;
    TaskCommits(v, n);
    hide Step;
  }

  lemma TaskCommits(s: State, n: nat)
    requires n in s.tasks && s.tasks[n].work.Committing? && Exists(s.broker, s.tasks[n].at)
    ensures var t := Step(s, Advance(n, 0)); t.broker == Committed(s.broker, s.tasks[n].at) && t.log == s.log
  {
  }

  /** Pulled and finished, the head is committed, and of the record only its ack is new. */
  lemma FinishCommits(s: State, name: string)
    requires Tidy(s) && CanPull(s, name)
    ensures Exists(s.broker, s.instances[name].buffer[0])
    ensures var at := s.instances[name].buffer[0];
      var t := Run(Step(s, Pull(name)), Finish(s, name));
      && t.broker == Committed(s.broker, at)
      && (t.log == s.log || t.log == s.log.(acked := s.log.acked + {at}))
  {
    PullTakes(s, name);
    PullWorks(s, name);
    var at, u := s.instances[name].buffer[0], Pulled(s, name);
    assert Step(s, Pull(name)) == u;
    hide Pulled, Taken, Tidy, Step, Run;
    if ContentOf(s.broker, at).decodes {
      AckCommits(u, name, at);
    } else {
      RunOfOne(u, Advance(s.nextTask, 0));
      TaskCommits(u, s.nextTask);
    }
  }

  lemma RunOfOne(s: State, a: Event)
    ensures Run(s, [a]) == Step(s, a)
  {
    hide Step;
    assert Run(Step(s, a), []) == Step(s, a);
  }

  lemma RunOfTwo(s: State, a: Event, b: Event)
    ensures Run(s, [a, b]) == Step(Step(s, a), b)
  {
    hide Step;
    assert [a, b][1..] == [b];
    RunOfOne(Step(s, a), b);
  }

  lemma {:induction false} NoPullIsPrompt(s: State, events: seq<Event>)
    requires forall k :: 0 <= k < |events| ==> !events[k].Pull?
    ensures PromptRun(s, events)
    decreases |events|
  {
    hide Step;
    if events != [] { NoPullIsPrompt(Step(s, events[0]), events[1..]); }
  }

  /** A pull that overtakes, finished, commits past what it overtook. */
  lemma OvertakenIsPassed(s: State, name: string)
    requires Tidy(s) && CanPull(s, name) && Overtakes(s, name)
    ensures Exists(s.broker, s.instances[name].buffer[0])
    ensures !CommitsSettled(Run(Step(s, Pull(name)), Finish(s, name)))
  {
    FinishCommits(s, name);
    HeadFits(s, name);
    var at := s.instances[name].buffer[0];
    var t := Run(Step(s, Pull(name)), Finish(s, name));
    var x: At :| Taken(s, name, x) && x.0 == at.0 && Open(s, x);
    assert BeforeBuffer(s.instances[name], x);
    hide Run, Step, Finish, Taken, Tidy, InOrder, BeforeBuffer;
    assert Exists(t.broker, x) && x.1 < t.broker.committed[x.0] && !Settled(t, x);
  }

  /**
   * The condition is exact: after any prompt run, a pull keeps every prompt continuation safe if and
   * only if it goes past no open message of its partition that the instance has taken, be it in
   * flight, being settled, or rejected in vain.
   */
  lemma PullIsSafeIff(start: State, events: seq<Event>, name: string)
    requires Initial(start) && PromptRun(start, events) && CanPull(Run(start, events), name)
    ensures var s := Run(start, events);
      (forall more :: PromptRun(Step(s, Pull(name)), more) ==> CommitsSettled(Run(Step(s, Pull(name)), more)))
        <==> !Overtakes(s, name)
  {
    InitialIsSound(start);
    RunKeeps(start, events);
    var s := Run(start, events);
    hide Run, Step, Initial, CommitsSettled, Overtakes, Behind, AllReached, BooksMatch, TakenFits, AllInOrder, TasksFit;
    if Overtakes(s, name) {
      OvertakenIsPassed(s, name);
      NoPullIsPrompt(Step(s, Pull(name)), Finish(s, name));
    } else {
      StepKeeps(s, Pull(name));
      forall more | PromptRun(Step(s, Pull(name)), more) ensures CommitsSettled(Run(Step(s, Pull(name)), more)) {
        RunKeeps(Step(s, Pull(name)), more);
      }
    }
  }

  // ---- A loss, step by step -----------------------------------------------------------

  /** The first message of `p` is handed to "a", and the second is at hand. */
  function FirstOfTwo(p: nat): seq<Event> {
    [Start("a"), Assign("a", p), Send("a", p, true), Send("a", p, true), Fetch("a", p), Fetch("a", p), Pull("a")]
  }

  function AfterFirst(s: State, p: nat): State {
    s.(broker := s.broker.(log := s.broker.log[p := [Content(0, true), Content(1, true)]]),
       instances := Reader(p, [(p, 1)], {(p, 0)}, 2),
       log := Log(2, map[0 := (p, 0), 1 := (p, 1)], {}))
  }

  /** "a" reads `p`: this much is fetched and handed out. */
  function Reader(p: nat, buffer: seq<At>, inFlight: set<At>, position: nat): map<string, Instance> {
    map["a" := Instance(buffer, inFlight, map[p := position], false, {})]
  }

  lemma Assigns(s: State, p: nat)
    requires Initial(s) && p in s.broker.log
    ensures Step(Step(s, Start("a")), Assign("a", p)) == s.(instances := Reader(p, [], {}, 0))
  {
    var a := With(s, "a", FRESH);
    assert Step(s, Start("a")) == a && a.instances == map["a" := FRESH];
    var i := FRESH.(position := map[p := 0]);
    assert Assigned(a, "a", p) == With(a, "a", i);
    assert map["a" := FRESH]["a" := i] == map["a" := i];
  }

  lemma SendsTwo(s: State, p: nat)
    requires p in s.broker.log && s.broker.log[p] == [] && s.log == Log(0, map[], {})
    requires "a" in s.instances && !s.instances["a"].closing
    ensures Step(Step(s, Send("a", p, true)), Send("a", p, true)) == AfterFirst(s, p).(instances := s.instances)
  {
    var x, y := Content(0, true), Content(1, true);
    assert [] + [x] == [x] && [x] + [y] == [x, y];
    var c := s.(broker := s.broker.(log := s.broker.log[p := [x]]), log := Log(1, map[0 := (p, 0)], {}));
    assert map[][0 := (p, 0)] == map[0 := (p, 0)];
    assert Step(s, Send("a", p, true)) == c;
    assert c.broker.log[p := [x, y]] == s.broker.log[p := [x, y]];
    assert map[0 := (p, 0)][1 := (p, 1)] == map[0 := (p, 0), 1 := (p, 1)];
  }

  lemma FetchesOne(s: State, p: nat, buffer: seq<At>, n: nat)
    requires s.instances == Reader(p, buffer, {}, n) && p in s.broker.log && n < |s.broker.log[p]|
    ensures Step(s, Fetch("a", p)) == s.(instances := Reader(p, buffer + [(p, n)], {}, n + 1))
  {
    assert map[p := n][p := n + 1] == map[p := n + 1];
    var i := s.instances["a"].(buffer := buffer + [(p, n)], position := map[p := n + 1]);
    assert s.instances["a" := i] == map["a" := i];
  }

  lemma HandsOne(s: State, p: nat)
    requires s.instances == Reader(p, [(p, 0), (p, 1)], {}, 2)
    requires Exists(s.broker, (p, 0)) && ContentOf(s.broker, (p, 0)).decodes
    ensures Step(s, Pull("a")) == s.(instances := Reader(p, [(p, 1)], {(p, 0)}, 2))
  {
    assert [(p, 0), (p, 1)][1..] == [(p, 1)] && {} + {(p, 0)} == {(p, 0)};
    var i := s.instances["a"].(buffer := [(p, 1)], inFlight := {(p, 0)});
    assert s.instances["a" := i] == map["a" := i];
  }

  lemma FirstIsHanded(s: State, p: nat)
    requires Initial(s) && p in s.broker.log
    ensures Run(s, FirstOfTwo(p)) == AfterFirst(s, p) && PromptRun(s, FirstOfTwo(p))
  {
    var a := Step(s, Start("a"));
    var b := Step(a, Assign("a", p));
    Assigns(s, p);
    var c := Step(b, Send("a", p, true));
    var d := Step(c, Send("a", p, true));
    SendsTwo(b, p);
    var e := Step(d, Fetch("a", p));
    FetchesOne(d, p, [], 0);
    var f := Step(e, Fetch("a", p));
    assert [] + [(p, 0)] == [(p, 0)] && [(p, 0)] + [(p, 1)] == [(p, 0), (p, 1)];
    FetchesOne(e, p, [(p, 0)], 1);
    HandsOne(f, p);
    IdleIsPrompt(f, "a");
    hide Step;
    SevenSteps(s, a, b, c, d, e, f, p);
  }

  lemma SevenSteps(s: State, a: State, b: State, c: State, d: State, e: State, f: State, p: nat)
    requires a == Step(s, Start("a")) && b == Step(a, Assign("a", p)) && c == Step(b, Send("a", p, true))
    requires d == Step(c, Send("a", p, true)) && e == Step(d, Fetch("a", p)) && f == Step(e, Fetch("a", p))
    requires Prompt(f, Pull("a"))
    ensures Run(s, FirstOfTwo(p)) == Step(f, Pull("a")) && PromptRun(s, FirstOfTwo(p))
  {
    hide Step;
    var all := FirstOfTwo(p);
    assert all[1..] ==
      [Assign("a", p), Send("a", p, true), Send("a", p, true), Fetch("a", p), Fetch("a", p), Pull("a")];
    RunOfNext(s, all);
    RunOfNext(a, all[1..]);
    RunOfNext(b, all[2..]);
    RunOfNext(c, all[3..]);
    RunOfNext(d, all[4..]);
    RunOfNext(e, all[5..]);
    RunOfNext(f, all[6..]);
    assert all[7..] == [];
  }

  lemma RunOfNext(s: State, events: seq<Event>)
    requires events != []
    ensures Run(s, events) == Run(Step(s, events[0]), events[1..])
    ensures PromptRun(s, events) <==> Prompt(s, events[0]) && PromptRun(Step(s, events[0]), events[1..])
  {
    hide Step, Prompt;
  }

  /** The second message is pulled, acked and committed, and the process dies. */
  function SecondFinished(s: State, p: nat): State {
    Step(Run(Step(s, Pull("a")), [Ack("a", (p, 1)), Advance(s.nextTask, 0)]), Crash("a"))
  }

  /**
   * The loss, from the start: with the first message of a partition handed out, the second is pulled,
   * acked and committed, and the process dies. The first is open and below the committed offset.
   */
  lemma SecondPullLoses(s: State, p: nat)
    requires Initial(s) && p in s.broker.log
    ensures PromptRun(s, FirstOfTwo(p))
    ensures var t := Run(s, FirstOfTwo(p));
      && CanPull(t, "a") && Overtakes(t, "a")
      && var u := SecondFinished(t, p);
         p in u.broker.committed && u.broker.committed[p] == 2 && Open(u, (p, 0))
  {
    FirstIsHanded(s, p);
    hide Run, PromptRun;
    var t := AfterFirst(s, p);
    assert Taken(t, "a", (p, 0)) && Open(t, (p, 0));
    HandsSecond(t, p);
    var u := Step(t, Pull("a"));
    AckCommits(u, "a", (p, 1));
    CrashKeepsBroker(Run(u, [Ack("a", (p, 1)), Advance(u.nextTask, 0)]), "a");
    hide Step;
  }

  lemma HandsSecond(s: State, p: nat)
    requires s.instances == Reader(p, [(p, 1)], {(p, 0)}, 2)
    requires Exists(s.broker, (p, 1)) && ContentOf(s.broker, (p, 1)).decodes
    ensures Step(s, Pull("a")) == s.(instances := Reader(p, [], {(p, 0), (p, 1)}, 2))
  {
    assert [(p, 1)][1..] == [] && {(p, 0)} + {(p, 1)} == {(p, 0), (p, 1)};
    var i := s.instances["a"].(buffer := [], inFlight := {(p, 0), (p, 1)});
    assert s.instances["a" := i] == map["a" := i];
  }

  lemma CrashKeepsBroker(s: State, name: string)
    ensures Step(s, Crash(name)).broker == s.broker && Step(s, Crash(name)).log == s.log
  {
  }

  /** A reject under way is overtaken just the same. */
  lemma RejectIsOvertaken(s: State, name: string, at: At)
    requires Tidy(s) && CanPull(s, name) && at in s.instances[name].inFlight && Open(s, at)
    requires at.0 == s.instances[name].buffer[0].0
    ensures var t := Step(s, Reject(name, at)); CanPull(t, name) && Overtakes(t, name)
  {
    var t := RejectStep(s, name, at);
    BeginsTaken(s, t, name, at, Moving);
    SameOpen(s, t);
    assert Taken(s, name, at);
    hide Taken, Open;
  }

  /** And so is one whose publish failed. */
  lemma FailureIsOvertaken(s: State, n: nat)
    requires Tidy(s) && n in s.tasks && s.tasks[n].work.Moving? && Open(s, s.tasks[n].at)
    requires CanPull(s, s.tasks[n].owner) && s.tasks[n].at.0 == s.instances[s.tasks[n].owner].buffer[0].0
    ensures var t := Step(s, Abandon(n)); CanPull(t, s.tasks[n].owner) && Overtakes(t, s.tasks[n].owner)
  {
    var t, name, at := Abandoned(s, n), s.tasks[n].owner, s.tasks[n].at;
    FailureTaken(s, n);
    SameOpen(s, t);
    assert Taken(s, name, at);
    hide Taken, Open;
  }
}
