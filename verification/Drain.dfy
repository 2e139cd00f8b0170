/**
 * Closing a transport: the registry of deliveries in flight, the promises `run` tracks, and the
 * close call that waits for the one and then for the other before it disconnects. A step is the
 * code between two awaits, or one command of a tracked promise.
 */
module Drain {
  import opened Common

  /**
   * A tracked promise: a consumer's setup or claim on its way (SQL only), a settle with its commands
   * still to run (publish then commit, say), or anything else.
   */
  datatype Job = SettingUp | Claiming(id: nat) | Settling(id: nat, left: nat) | Other

  /** Where the close call is: not made, waiting for the registry, waiting for promises, done. */
  datatype Phase = Open | Draining | Resumed | Flushing(snapshot: set<nat>) | Disconnected

  /**
   * `ready` counts the consumers whose setup has come back and who have not issued their claim yet,
   * `claimed` the ids whose claim has come back but which `get` has not added yet. There is a
   * connection pool (`pooled`) from the first statement on; a disconnect that finds one ends it.
   */
  datatype State = State(
    inFlight: set<nat>, pending: map<nat, Job>, nextJob: nat, ready: nat, claimed: set<nat>,
    pooled: bool, ended: bool, closing: bool, phase: Phase, log: Log)

  /**
   * A record of the run: the ids in flight at close and those of them not released since, the job
   * that settles each that was, the ids that entered after close, and the settling jobs that ran
   * all their commands or failed.
   */
  datatype Log = Log(
    atClose: set<nat>, owed: set<nat>, settles: map<nat, nat>, entered: set<nat>, finished: set<nat>, failed: set<nat>)

  datatype Event =
    | Deliver(id: nat)
    | Pass(autoSetup: bool)
    | Claim(id: nat)
    | Arrive(id: nat)
    | Settle(id: nat, commands: nat)
    | AckFound(id: nat, commands: nat)
    | Send
    | Progress(job: nat)
    | Fail(job: nat)
    | Close
    | Resume
    | Disconnect

  ghost predicate Initial(s: State) {
    s == State({}, map[], s.nextJob, 0, {}, false, false, false, Open, Log({}, {}, map[], {}, {}, {}))
  }

  /** `run`: the promise is tracked until it settles. */
  function Track(s: State, job: Job): State { s.(pending := s.pending[s.nextJob := job], nextJob := s.nextJob + 1) }

  /** Work that goes to the database opens the pool; once it is ended, it can only fail. */
  function Statement(s: State, job: Job): State { Track(s, job).(pooled := true) }

  /** An id enters the registry. */
  function Entered(s: State, id: nat): State {
    s.(inFlight := s.inFlight + {id},
       log := s.log.(entered := if s.closing then s.log.entered + {id} else s.log.entered))
  }

  /** `releaseInFlight`: the parked close call is resumed once nothing is in flight. */
  function Released(s: State, id: nat): State {
    var left := s.inFlight - {id};
    s.(inFlight := left, phase := if left == {} && s.phase.Draining? then Resumed else s.phase)
  }

  /** Release and tracking of the settle are one stretch of code. */
  function Settled(s: State, id: nat, commands: nat): State {
    var settles := if id in s.log.owed then s.log.settles[id := s.nextJob] else s.log.settles;
    Statement(Released(s, id), Settling(id, commands)).(log := s.log.(owed := s.log.owed - {id}, settles := settles))
  }

  function Progressed(s: State, n: nat): State {
    if n !in s.pending then s
    else match s.pending[n]
      case SettingUp => s.(pending := s.pending - {n}, ready := s.ready + 1)
      case Claiming(id) => s.(pending := s.pending - {n}, claimed := s.claimed + {id})
      case Settling(id, left) =>
        if left > 1 then s.(pending := s.pending[n := Settling(id, left - 1)])
        else s.(pending := s.pending - {n}, log := s.log.(finished := s.log.finished + {n}))
      case Other => s.(pending := s.pending - {n})
  }

  function Failed(s: State, n: nat): State {
    if n !in s.pending then s
    else
      var t := s.(pending := s.pending - {n});
      if s.pending[n].Settling? then t.(log := s.log.(failed := s.log.failed + {n})) else t
  }

  function Step(s: State, ev: Event): State {
    match ev
    // the check of `closing` and the addition are one stretch of code ...
    case Deliver(id) => if s.closing then s else Entered(s, id)
    // ... except in SQL, where setup and claim are awaited in between, and only the first is checked
    case Pass(autoSetup) => if s.closing then s else Track(s, SettingUp).(pooled := s.pooled || autoSetup)
    case Claim(id) =>
      if s.ready == 0 then s
      else if s.ended then s.(ready := s.ready - 1)
      else Track(s, Claiming(id)).(ready := s.ready - 1, pooled := true)
    case Arrive(id) => if id in s.claimed then Entered(s, id).(claimed := s.claimed - {id}) else s
    // a second settle of an id finds it released
    case Settle(id, commands) => if id !in s.inFlight then s else Settled(s, id, commands)
    // an ack is not gated in the transports that let a found message be acked
    case AckFound(id, commands) => Settled(s, id, commands)
    case Send => if s.closing then s else Statement(s, Other)
    case Progress(n) => Progressed(s, n)
    case Fail(n) => Failed(s, n)
    case Close =>
      if s.closing then s
      else
        s.(closing := true, log := s.log.(atClose := s.inFlight, owed := s.inFlight),
           phase := if s.inFlight == {} then Flushing(s.pending.Keys) else Draining)
    case Resume => if s.phase.Resumed? then s.(phase := Flushing(s.pending.Keys)) else s
    case Disconnect =>
      if s.phase.Flushing? && s.phase.snapshot !! s.pending.Keys
      then s.(phase := Disconnected, ended := s.ended || s.pooled)
      else s
  }

  function Run(s: State, events: seq<Event>): State
    decreases |events|
  {
    if events == [] then s else Run(Step(s, events[0]), events[1..])
  }

  // ---- What holds for every transport ------------------------------------------------

  /** The jobs the close call still waits for, or will. */
  function Awaited(s: State): set<nat> { if s.phase.Flushing? then s.phase.snapshot else s.pending.Keys }

  /** The settle of a delivery in flight at close ran all its commands, or failed. */
  predicate Over(s: State, id: nat) {
    id in s.log.settles && (s.log.settles[id] in s.log.finished || s.log.settles[id] in s.log.failed)
  }

  /** It is tracked, and the close call waits for it. */
  predicate Underway(s: State, id: nat) {
    && id in s.log.settles && s.log.settles[id] in Awaited(s)
    && s.log.settles[id] in s.pending && s.pending[s.log.settles[id]].Settling?
  }

  ghost predicate PhaseMatches(s: State) {
    && (s.closing <==> !s.phase.Open?)
    && (s.phase.Open? ==> s.log.atClose == {} && s.log.owed == {} && s.log.entered == {})
    && (forall n :: n in s.pending ==> n < s.nextJob)
    && s.log.owed <= s.inFlight
    && (s.phase.Draining? ==> s.inFlight != {})
    && (s.phase.Draining? ==> s.inFlight <= s.log.owed + s.log.entered)
    && (s.phase.Resumed? || s.phase.Flushing? || s.phase.Disconnected? ==>
          s.log.owed == {} && s.inFlight <= s.log.entered)
  }

  predicate Accounted(s: State, id: nat) { id in s.log.owed || Over(s, id) || Underway(s, id) }

  ghost predicate Sound(s: State) {
    && PhaseMatches(s)
    && (forall id :: id in s.log.atClose && !s.phase.Disconnected? ==> Accounted(s, id))
    && (s.phase.Disconnected? ==> forall id :: id in s.log.atClose ==> Over(s, id))
  }

  /** What a step must keep of delivery `id`. */
  predicate StillAccounted(t: State, id: nat) { id in t.log.atClose && !t.phase.Disconnected? ==> Accounted(t, id) }

  lemma SettledKeeps(s: State, id: nat, commands: nat, x: nat)
    requires PhaseMatches(s) && StillAccounted(s, x)
    ensures PhaseMatches(Settled(s, id, commands)) && StillAccounted(Settled(s, id, commands), x)
  {
  }

  lemma ProgressedKeeps(s: State, n: nat, x: nat)
    requires PhaseMatches(s) && StillAccounted(s, x)
    ensures PhaseMatches(Progressed(s, n)) && StillAccounted(Progressed(s, n), x)
  {
  }

  lemma FailedKeeps(s: State, n: nat, x: nat)
    requires PhaseMatches(s) && StillAccounted(s, x)
    ensures PhaseMatches(Failed(s, n)) && StillAccounted(Failed(s, n), x)
  {
  }

  /** More is tracked, or enters the registry. */
  lemma MoreKeeps(s: State, ev: Event, x: nat)
    requires PhaseMatches(s) && StillAccounted(s, x)
    requires ev.Deliver? || ev.Pass? || ev.Claim? || ev.Arrive? || ev.Send?
    ensures PhaseMatches(Step(s, ev)) && StillAccounted(Step(s, ev), x)
  {
  }

  lemma PhaseKeeps(s: State, ev: Event, x: nat)
    requires PhaseMatches(s) && StillAccounted(s, x)
    requires ev.Close? || ev.Resume? || ev.Disconnect?
    ensures PhaseMatches(Step(s, ev)) && StillAccounted(Step(s, ev), x)
  {
  }

  lemma StepKeepsSettles(s: State, ev: Event, x: nat)
    requires PhaseMatches(s) && StillAccounted(s, x)
    ensures PhaseMatches(Step(s, ev)) && StillAccounted(Step(s, ev), x)
  {
    match ev
    case Settle(id, commands) => SettledKeeps(s, id, commands, x); hide Settled, PhaseMatches, Accounted;
    case AckFound(id, commands) => SettledKeeps(s, id, commands, x); hide Settled, PhaseMatches, Accounted;
    case Progress(n) => ProgressedKeeps(s, n, x); hide Progressed, PhaseMatches, Accounted;
    case Fail(n) => FailedKeeps(s, n, x); hide Failed, PhaseMatches, Accounted;
    case _ =>
      if ev.Close? || ev.Resume? || ev.Disconnect? { PhaseKeeps(s, ev, x); } else { MoreKeeps(s, ev, x); }
      hide Step, PhaseMatches, StillAccounted;
  }

  lemma DisconnectKeepsSettles(s: State, id: nat)
    requires Sound(s) && Step(s, Disconnect).phase.Disconnected? && id in Step(s, Disconnect).log.atClose
    ensures Over(Step(s, Disconnect), id)
  {
    assert !s.phase.Disconnected? ==> Accounted(s, id);
  }

  lemma StepKeeps(s: State, ev: Event)
    requires Sound(s)
    ensures Sound(Step(s, ev))
  {
    var t := Step(s, ev);
    StepKeepsSettles(s, ev, 0);
    forall id | id in t.log.atClose && !t.phase.Disconnected? ensures Accounted(t, id) {
      StepKeepsSettles(s, ev, id);
    }
    if ev.Disconnect? {
      forall id | id in t.log.atClose && t.phase.Disconnected? ensures Over(t, id) {
        DisconnectKeepsSettles(s, id);
      }
      hide Step;
    }
    hide PhaseMatches, Accounted;
  }

  lemma {:induction false} RunKeeps(s: State, events: seq<Event>)
    requires Sound(s)
    ensures Sound(Run(s, events))
    decreases |events|
  {
    if events != [] {
      StepKeeps(s, events[0]);
      hide Sound, Step;
      RunKeeps(Step(s, events[0]), events[1..]);
    }
  }

  /**
   * The connection goes only after every delivery in flight at close was released, and the very job
   * that settles it ran all its commands or failed.
   */
  lemma DisconnectComesLast(s: State, events: seq<Event>, id: nat)
    requires Initial(s) && Run(s, events).phase.Disconnected? && id in Run(s, events).log.atClose
    ensures var t := Run(s, events);
      && id !in t.log.owed && id in t.log.settles
      && (t.log.settles[id] in t.log.finished || t.log.settles[id] in t.log.failed)
  {
    RunKeeps(s, events);
    hide Run;
  }

  // ---- A close can always end --------------------------------------------------------

  function Rank(p: Phase): nat {
    match p case Draining => 3 case Resumed => 2 case Flushing(_) => 1 case _ => 0
  }

  /** The tracked promises the close call still waits for. */
  function Left(s: State): set<nat> { if s.phase.Flushing? then s.phase.snapshot * s.pending.Keys else {} }

  lemma RunNext(s: State, ev: Event, rest: seq<Event>)
    ensures Run(s, [ev] + rest) == Run(Step(s, ev), rest)
  {
    hide Step;
    assert ([ev] + rest)[1..] == rest;
  }

  /** The commands of one tracked promise run to their end. */
  lemma {:induction false} JobEnds(s: State, n: nat, left: nat) returns (events: seq<Event>)
    requires s.phase.Flushing? && s.closing && n in s.pending
    requires left == match s.pending[n] case Settling(_, more) => more case _ => 0
    ensures var t := Run(s, events);
      t.phase == s.phase && t.closing && t.inFlight == s.inFlight && t.pending == s.pending - {n}
    decreases left
  {
    var t := Step(s, Progress(n));
    if n in t.pending {
      var rest := JobEnds(t, n, left - 1);
      events := [Progress(n)] + rest;
      RunNext(s, Progress(n), rest);
      assert t.pending - {n} == s.pending - {n};
    } else {
      events := [Progress(n)];
      RunNext(s, Progress(n), []);
      assert [Progress(n)] + [] == [Progress(n)];
      assert Run(t, []) == t;
    }
  }

  lemma {:induction false} RunConcat(s: State, a: seq<Event>, b: seq<Event>)
    ensures Run(s, a + b) == Run(Run(s, a), b)
    decreases |a|
  {
    hide Step;
    if a == [] {
      assert a + b == b;
    } else {
      assert (a + b)[1..] == a[1..] + b;
      RunConcat(Step(s, a[0]), a[1..], b);
    }
  }

  /**
   * From every reachable state with a close call under way there are settles of what is in flight
   * and ends of what is tracked after which the transport is disconnected: nothing is stuck.
   */
  lemma {:induction false} CloseCanEnd(s: State) returns (events: seq<Event>)
    requires Sound(s) && s.closing
    ensures Run(s, events).phase.Disconnected?
    decreases Rank(s.phase), |s.inFlight|, |Left(s)|, 1
  {
    match s.phase
    case Draining =>
      var id :| id in s.inFlight;
      var rest := CloseCanEndAfter(s, Settle(id, 1));
      events := [Settle(id, 1)] + rest;
      RunNext(s, Settle(id, 1), rest);
    case Resumed =>
      var rest := CloseCanEndAfter(s, Resume);
      events := [Resume] + rest;
      RunNext(s, Resume, rest);
    case Flushing(snapshot) =>
      if Left(s) == {} {
        events := [Disconnect];
        forall n | n in snapshot ensures n !in s.pending { assert n in s.pending ==> n in Left(s); }
        RunNext(s, Disconnect, []);
        assert [Disconnect] + [] == [Disconnect] && Run(Step(s, Disconnect), []) == Step(s, Disconnect);
      } else {
        var n :| n in Left(s);
        var first := JobEnds(s, n, match s.pending[n] case Settling(_, more) => more case _ => 0);
        RunKeeps(s, first);
        var t := Run(s, first);
        assert Left(t) == Left(s) - {n};
        var rest := CloseCanEnd(t);
        events := first + rest;
        RunConcat(s, first, rest);
      }
    case Disconnected => events := []; assert Run(s, []) == s;
    case Open => events := []; assert false;
  }

  lemma CloseCanEndAfter(s: State, ev: Event) returns (rest: seq<Event>)
    requires Sound(s) && s.closing
    requires (ev.Settle? && s.phase.Draining? && ev.id in s.inFlight) || (ev.Resume? && s.phase.Resumed?)
    ensures Run(Step(s, ev), rest).phase.Disconnected?
    decreases Rank(s.phase), |s.inFlight|, |Left(s)|, 0
  {
    StepKeeps(s, ev);
    var t := Step(s, ev);
    if ev.Settle? { assert t.inFlight == s.inFlight - {ev.id}; }
    hide Sound;
    rest := CloseCanEnd(t);
  }

  /** A tracked promise that settles, run to its end or failed, is tracked no more. */
  lemma SettledIsUntracked(s: State, n: nat)
    requires n in s.pending
    ensures var t := Step(s, Fail(n)); t.pending == s.pending - {n} && t.phase == s.phase && t.inFlight == s.inFlight
    ensures !(s.pending[n].Settling? && s.pending[n].left > 1) ==>
      var t := Step(s, Progress(n)); t.pending == s.pending - {n} && t.phase == s.phase && t.inFlight == s.inFlight
  {
  }

  /** Once closing, a send does nothing, and closing is for good. */
  lemma {:induction false} ClosedRefuses(s: State, events: seq<Event>)
    requires s.closing
    ensures var t := Run(s, events); t.closing && Step(t, Send) == t
    decreases |events|
  {
    if events != [] { ClosedRefuses(Step(s, events[0]), events[1..]); }
  }

  // ---- Transports that add in the stretch of code that checks ------------------------

  /** No claim is awaited between the check of `closing` and the addition. */
  predicate Gated(events: seq<Event>) { forall i :: 0 <= i < |events| ==> !events[i].Claim? }

  predicate NoClaims(s: State) {
    s.claimed == {} && (forall n :: n in s.pending ==> !s.pending[n].Claiming?) && s.log.entered == {}
  }

  lemma NoClaimsStays(s: State, ev: Event)
    requires NoClaims(s) && !ev.Claim?
    ensures NoClaims(Step(s, ev))
  {
  }

  lemma {:induction false} GatedNeverEnters(s: State, events: seq<Event>)
    requires NoClaims(s) && Gated(events)
    ensures Run(s, events).log.entered == {}
    decreases |events|
  {
    if events != [] {
      NoClaimsStays(s, events[0]);
      hide Step, NoClaims;
      GatedNeverEnters(Step(s, events[0]), events[1..]);
    }
  }

  /**
   * All but SQL: once closing is set nothing enters the registry, and the close call resumes only
   * when the registry is empty, which it then stays.
   */
  lemma NothingEntersAfterClose(s: State, events: seq<Event>)
    requires Initial(s) && Gated(events)
    ensures var t := Run(s, events);
      && t.log.entered == {}
      && (t.closing ==> t.inFlight <= t.log.atClose)
      && (t.phase.Resumed? || t.phase.Flushing? || t.phase.Disconnected? ==> t.inFlight == {})
  {
    RunKeeps(s, events);
    GatedNeverEnters(s, events);
    OwedWereInFlight(s, events);
    hide Run;
  }

  predicate OwedAtClose(s: State) { s.log.owed <= s.log.atClose && (!s.closing ==> s.log.owed == {}) }

  lemma OwedStays(s: State, ev: Event)
    requires OwedAtClose(s)
    ensures OwedAtClose(Step(s, ev))
  {
  }

  lemma {:induction false} OwedWereInFlight(s: State, events: seq<Event>)
    requires OwedAtClose(s)
    ensures OwedAtClose(Run(s, events))
    decreases |events|
  {
    if events != [] {
      OwedStays(s, events[0]);
      hide Step, OwedAtClose;
      OwedWereInFlight(Step(s, events[0]), events[1..]);
    }
  }

  // ---- SQL ---------------------------------------------------------------------------

  /** A consumer is past its check of `closing` and has not added its row yet. */
  predicate PassOut(s: State) {
    || s.claimed != {}
    || (exists n :: n in s.pending && s.pending[n].Claiming?)
    || (!s.ended && (s.ready > 0 || exists n :: n in s.pending && s.pending[n].SettingUp?))
  }

  /** After a close no consumer passes the check any more. */
  lemma NoPassStays(s: State, ev: Event)
    requires s.closing && !PassOut(s)
    ensures Step(s, ev).closing && !PassOut(Step(s, ev)) && Step(s, ev).log.entered == s.log.entered
  {
    var t := Step(s, ev);
    assert t.claimed == {} && forall n :: n in t.pending ==> !t.pending[n].Claiming?;
    assert !t.ended ==> t.ready == 0 && forall n :: n in t.pending ==> !t.pending[n].SettingUp?;
  }

  lemma {:induction false} NoPassNoEntry(s: State, events: seq<Event>)
    requires s.closing && !PassOut(s)
    ensures Run(s, events).log.entered == s.log.entered
    decreases |events|
  {
    if events != [] {
      NoPassStays(s, events[0]);
      hide Step, PassOut;
      NoPassNoEntry(Step(s, events[0]), events[1..]);
    }
  }

  lemma RunOfNext(s: State, a: Event, rest: seq<Event>)
    ensures Run(s, [a] + rest) == Run(Step(s, a), rest)
  {
    hide Step;
    assert ([a] + rest)[1..] == rest;
  }

  /** A row whose claim is back enters. */
  lemma ClaimedEnters(s: State, id: nat)
    requires s.closing && id in s.claimed
    ensures id in Run(s, [Arrive(id)] + []).log.entered
  {
    RunOfNext(s, Arrive(id), []);
  }

  /** A claim that is out can come back. */
  lemma ClaimingEnters(s: State, n: nat)
    requires s.closing && n in s.pending && s.pending[n].Claiming?
    ensures s.pending[n].id in Run(s, [Progress(n)] + ([Arrive(s.pending[n].id)] + [])).log.entered
  {
    RunOfNext(s, Progress(n), [Arrive(s.pending[n].id)] + []);
    ClaimedEnters(Step(s, Progress(n)), s.pending[n].id);
  }

  /** A consumer whose setup is back issues its claim, closing or not. */
  lemma ReadyEnters(s: State, id: nat)
    requires s.closing && s.ready > 0 && !s.ended
    ensures id in Run(s, [Claim(id)] + ([Progress(s.nextJob)] + ([Arrive(id)] + []))).log.entered
  {
    RunOfNext(s, Claim(id), [Progress(s.nextJob)] + ([Arrive(id)] + []));
    ClaimingEnters(Step(s, Claim(id)), s.nextJob);
  }

  lemma SettingUpEnters(s: State, n: nat, id: nat)
    requires s.closing && n in s.pending && s.pending[n].SettingUp? && !s.ended
    ensures id in Run(s, [Progress(n)] + ([Claim(id)] + ([Progress(s.nextJob)] + ([Arrive(id)] + [])))).log.entered
  {
    RunOfNext(s, Progress(n), [Claim(id)] + ([Progress(s.nextJob)] + ([Arrive(id)] + [])));
    ReadyEnters(Step(s, Progress(n)), id);
  }

  /**
   * After a close an id can still enter exactly when some consumer is past its check of `closing`:
   * in setup or between setup and claim, as long as its claim can still reach the database, or with
   * a claim that is out or back but not yet added.
   */
  lemma LateEntryIff(s: State)
    requires s.closing && s.log.entered == {}
    ensures (exists events :: Run(s, events).log.entered != {}) <==> PassOut(s)
  {
    hide Run, Step;
    if PassOut(s) {
      if s.claimed != {} {
        var id :| id in s.claimed;
        ClaimedEnters(s, id);
      } else if n :| n in s.pending && s.pending[n].Claiming? {
        ClaimingEnters(s, n);
      } else if s.ready > 0 {
        ReadyEnters(s, 0);
      } else {
        var n :| n in s.pending && s.pending[n].SettingUp?;
        SettingUpEnters(s, n, 0);
      }
    } else {
      forall events ensures Run(s, events).log.entered == {} { NoPassNoEntry(s, events); }
    }
  }

  /** With a claim out at close the connection can be gone with a delivery in flight, whose settle can only fail. */
  lemma DisconnectWithDelivery(s: State, id: nat)
    requires Initial(s)
    ensures var ready := Step(Step(s, Pass(true)), Progress(s.nextJob));
      var claimed := Step(Step(Step(ready, Claim(id)), Close), Progress(s.nextJob + 1));
      var t := Step(Step(claimed, Disconnect), Arrive(id));
      t.phase.Disconnected? && t.ended && t.inFlight == {id}
  {
    var ready := Step(Step(s, Pass(true)), Progress(s.nextJob));
    assert ready.pending == map[] && ready.ready == 1 && ready.nextJob == s.nextJob + 1;
    var a := Step(Step(ready, Claim(id)), Close);
    assert a.phase == Flushing({s.nextJob + 1}) && a.pending == map[s.nextJob + 1 := Claiming(id)];
    var b := Step(a, Progress(s.nextJob + 1));
    assert b.phase == Flushing({s.nextJob + 1}) && b.pending == map[] && b.claimed == {id} && b.inFlight == {};
  }

  /** And so it can with no claim out at close: a consumer still in setup claims afterwards. */
  lemma ClaimAfterClose(s: State, id: nat)
    requires Initial(s)
    ensures var closed := Step(Step(s, Pass(true)), Close);
      && closed.claimed == {} && (forall n :: n in closed.pending ==> !closed.pending[n].Claiming?)
      && var claiming := Step(Step(closed, Progress(s.nextJob)), Claim(id));
         var t := Step(Step(Step(claiming, Disconnect), Progress(s.nextJob + 1)), Arrive(id));
         t.phase.Disconnected? && t.ended && t.inFlight == {id}
  {
    var closed := Step(Step(s, Pass(true)), Close);
    assert closed.phase == Flushing({s.nextJob}) && closed.pending == map[s.nextJob := SettingUp];
    var claiming := Step(Step(closed, Progress(s.nextJob)), Claim(id));
    assert claiming.pending == map[s.nextJob + 1 := Claiming(id)] && claiming.phase == Flushing({s.nextJob});
    var gone := Step(claiming, Disconnect);
    assert gone.phase.Disconnected? && gone.pending == claiming.pending;
    assert Step(gone, Progress(s.nextJob + 1)).claimed == {id};
  }

  // ---- The registry object -----------------------------------------------------------

  /** The fields and methods each broker transport carries for closing; `waiters` are parked close calls. */
  class Registry {
    var inFlight: set<nat>
    var pending: map<nat, Job>
    var nextJob: nat
    var waiters: nat
    var closing: bool
    ghost var ready: nat
    ghost var claimed: set<nat>
    var pooled: bool
    ghost var ended: bool
    ghost var phase: Phase
    ghost var log: Log

    ghost function View(): State
      reads this
    {
      State(inFlight, pending, nextJob, ready, claimed, pooled, ended, closing, phase, log)
    }

    ghost predicate Valid()
      reads this
    {
      Sound(View()) && waiters == if phase.Draining? then 1 else 0
    }

    constructor ()
      ensures Valid() && Initial(View())
    {
      inFlight, pending, nextJob, waiters, pooled, closing := {}, map[], 0, 0, false, false;
      ready, claimed, ended, phase, log := 0, {}, false, Open, Log({}, {}, map[], {}, {}, {});
    }

    /** A turn of `get` that has a message: deliver it unless closing. */
    method Deliver(id: nat) returns (yielded: bool)
      requires Valid()
      modifies this
      ensures Valid() && View() == Step(old(View()), Event.Deliver(id))
      ensures yielded <==> !old(closing)
    {
      StepKeeps(View(), Event.Deliver(id));
      yielded := !closing;
      if yielded {
        inFlight := inFlight + {id};
      }
    }

    /** `releaseInFlight`; `woken` close calls resume. */
    method Release(id: nat) returns (woken: nat)
      requires Valid()
      modifies this
      ensures View() == Released(old(View()), id) && waiters == if phase.Draining? then 1 else 0
      ensures woken == if inFlight == {} then old(waiters) else 0
      ensures woken > 0 ==> inFlight == {}
    {
      inFlight := inFlight - {id};
      woken := 0;
      if inFlight == {} {
        woken, waiters := waiters, 0;
        if phase.Draining? { phase := Resumed; }
      }
    }

    /** `reject` (and `ack` where it is gated): release, and track the whole settle as one promise. */
    method Settle(id: nat, commands: nat) returns (job: Option<nat>)
      requires Valid()
      modifies this
      ensures Valid() && View() == Step(old(View()), Event.Settle(id, commands))
      ensures job.Some? <==> id in old(inFlight)
      ensures job.Some? ==> job.value in pending && pending[job.value] == Settling(id, commands)
    {
      StepKeeps(View(), Event.Settle(id, commands));
      if id !in inFlight {
        return None;
      }
      var woken := Release(id);
      pending := pending[nextJob := Settling(id, commands)];
      log := log.(owed := log.owed - {id},
                  settles := if id in log.owed then log.settles[id := nextJob] else log.settles);
      job := Some(nextJob);
      nextJob := nextJob + 1;
      pooled := true;
    }

    /** The part of `close` before its first wait; `done` when a close call was made before. */
    method Close() returns (done: bool, snapshot: Option<set<nat>>)
      requires Valid()
      modifies this
      ensures Valid() && View() == Step(old(View()), Event.Close)
      ensures done <==> old(closing)
      ensures snapshot.Some? <==> !done && inFlight == {}
      ensures snapshot.Some? ==> snapshot.value == pending.Keys
    {
      StepKeeps(View(), Event.Close);
      if closing {
        return true, None;
      }
      closing := true;
      log := log.(atClose := inFlight, owed := inFlight);
      if inFlight != {} {
        waiters := waiters + 1;
        phase := Draining;
        return false, None;
      }
      phase := Flushing(pending.Keys);
      return false, Some(pending.Keys);
    }
  }
}
