/**
 * Any number of Redis Streams consumers over one stream, its consumer group and its sorted set
 * of delayed messages. A step is one command, or the code between two awaits; an event that
 * cannot happen leaves the state unchanged.
 */
module RedisRuns {
  import opened Common

  /**
   * Stream ids and copies are numbered as they appear. `stream` maps an id to the copy it holds,
   * `pel` the pending ids to when they were last delivered, `delayed` a copy to when it is due.
   */
  datatype Server = Server(
    stream: map<nat, nat>, lastId: nat, lastRead: nat, pel: map<nat, real>, delayed: map<nat, real>, clock: real)

  /** `batch`: pulled, not yet yielded. `promoting`: popped from the sorted set, not yet appended. */
  datatype Consumer = Consumer(batch: seq<nat>, promoting: seq<nat>, inFlight: set<nat>, closing: bool)

  /** The next command of a settle: XADD or ZADD of the copy, then XACK, then XDEL; a discard is an XACK only. */
  datatype Work = Moving(delay: real) | Acking | Deleting | Discarding

  datatype Task = Task(owner: string, id: nat, work: Work)

  /**
   * A record of the run: the copies, the newest copy of each message, which copy each id ever
   * held and when it was appended, when a delayed copy was due, and the copies someone acked.
   */
  datatype Log = Log(
    messages: nat, copies: nat, content: map<nat, Content>, latest: map<nat, nat>,
    held: map<nat, nat>, appended: map<nat, real>, due: map<nat, real>, acked: set<nat>)

  datatype State = State(
    server: Server, consumers: map<string, Consumer>, tasks: map<nat, Task>, nextTask: nat, log: Log)

  datatype Event =
    | Tick(elapsed: real)
    | Start(name: string)
    | Send(name: string, decodes: bool, delay: real)
    | PopDue(name: string, order: seq<nat>)
    | AppendOne(name: string)
    | Reclaim(name: string, ids: seq<nat>, minIdle: real)
    | Read(name: string, count: nat)
    | Yield(name: string)
    | Drop(name: string)
    | Ack(name: string, id: nat)
    | Reject(name: string, id: nat, delay: real)
    | Advance(task: nat)
    | Abandon(task: nat)
    | Close(name: string)
    | FailPromotion(name: string)
    | Crash(name: string)

  predicate Initial(s: State) {
    && s.server.stream == map[] && s.server.lastId == 0 && s.server.lastRead == 0 && s.server.pel == map[]
    && s.server.delayed == map[] && s.consumers == map[] && s.tasks == map[]
    && s.log == Log(0, 0, map[], map[], map[], map[], map[], {})
  }

  // ---- Commands ----------------------------------------------------------------------

  /** XADD */
  function Append(s: State, copy: nat): State {
    var id := s.server.lastId + 1;
    s.(server := s.server.(stream := s.server.stream[id := copy], lastId := id),
       log := s.log.(held := s.log.held[id := copy], appended := s.log.appended[id := s.server.clock]))
  }

  /** A new copy, the newest of its message. */
  function Recorded(s: State, c: Content): State {
    var messages := if c.message < s.log.messages then s.log.messages else c.message + 1;
    s.(log := s.log.(messages := messages, copies := s.log.copies + 1,
                     content := s.log.content[s.log.copies := c], latest := s.log.latest[c.message := s.log.copies]))
  }

  /** ZADD */
  function Delay(s: State, copy: nat, delay: real): State {
    var due := s.server.clock + delay;
    s.(server := s.server.(delayed := s.server.delayed[copy := due]), log := s.log.(due := s.log.due[copy := due]))
  }

  /** `enqueue`: delayed when the delay is positive, appended otherwise. */
  function Enqueue(s: State, c: Content, delay: real): State {
    var t := Recorded(s, c);
    if delay > 0.0 then Delay(t, s.log.copies, delay) else Append(t, s.log.copies)
  }

  function XAck(s: State, id: nat): State { s.(server := s.server.(pel := s.server.pel - {id})) }

  function XDel(s: State, id: nat): State { s.(server := s.server.(stream := s.server.stream - {id})) }

  /** The ids `XREADGROUP >` may still hand out. */
  function Unread(server: Server): set<nat> { set id | id in server.stream && id > server.lastRead }

  function UnreadTo(server: Server, upTo: nat): set<nat> { set id | id in Unread(server) && id <= upTo }

  // ---- Steps -------------------------------------------------------------------------

  function Sent(s: State, name: string, decodes: bool, delay: real): State {
    if name !in s.consumers || s.consumers[name].closing then s
    else Enqueue(s, Content(s.log.messages, decodes), delay)
  }

  function With(s: State, name: string, c: Consumer): State { s.(consumers := s.consumers[name := c]) }

  /** The script pops every due member at once; `order` is the order it returns them in. */
  predicate CanPop(s: State, name: string, order: seq<nat>) {
    && name in s.consumers && s.consumers[name].promoting == []
    && (forall i :: 0 <= i < |order| ==> order[i] in s.server.delayed && s.server.delayed[order[i]] <= s.server.clock)
    && (forall c :: c in s.server.delayed && s.server.delayed[c] <= s.server.clock ==> c in order)
    && (forall i, j :: 0 <= i < j < |order| ==> order[i] != order[j])
  }

  function Popped(s: State, name: string, order: seq<nat>): State {
    if !CanPop(s, name, order) then s
    else
      With(s, name, s.consumers[name].(promoting := order))
      .(server := s.server.(delayed := map c | c in s.server.delayed && c !in order :: s.server.delayed[c]))
  }

  function Promoted(s: State, name: string): State {
    if name !in s.consumers || s.consumers[name].promoting == [] then s
    else
      var c := s.consumers[name];
      With(Append(s, c.promoting[0]), name, c.(promoting := c.promoting[1..]))
  }

  /** XAUTOCLAIM: idle pending entries come to `name`; those deleted meanwhile leave the pending list. */
  predicate CanReclaim(s: State, name: string, ids: seq<nat>, minIdle: real) {
    name in s.consumers
    && forall i :: 0 <= i < |ids| ==> ids[i] in s.server.pel && s.server.clock - s.server.pel[ids[i]] >= minIdle
  }

  function Present(stream: map<nat, nat>, ids: seq<nat>): (r: seq<nat>)
    ensures forall id :: id in r ==> id in stream
  {
    if ids == [] then [] else (if ids[0] in stream then [ids[0]] else []) + Present(stream, ids[1..])
  }

  function Reclaimed(s: State, name: string, ids: seq<nat>, minIdle: real): State {
    if !CanReclaim(s, name, ids, minIdle) then s
    else
      var pel := map id | id in s.server.pel && (id !in ids || id in s.server.stream)
        :: if id in ids then s.server.clock else s.server.pel[id];
      With(s, name, s.consumers[name].(batch := s.consumers[name].batch + Present(s.server.stream, ids)))
      .(server := s.server.(pel := pel))
  }

  /** XREADGROUP of the oldest unread entries, up to `upTo`. */
  function ReadUpTo(s: State, name: string, upTo: nat): State
    requires name in s.consumers && upTo >= s.server.lastRead
  {
    var ids := UnreadTo(s.server, upTo);
    With(s, name, s.consumers[name].(batch := s.consumers[name].batch + Ascending(ids)))
    .(server := s.server.(
        pel := map id | id in s.server.pel.Keys + ids :: if id in ids then s.server.clock else s.server.pel[id],
        lastRead := upTo))
  }

  predicate Minimal(ids: set<nat>, i: nat) { i in ids && forall j :: j in ids ==> i <= j }

  lemma {:induction false} LeastExists(ids: set<nat>)
    requires ids != {}
    ensures exists i :: Minimal(ids, i)
    decreases |ids|
  {
    var x :| x in ids;
    var rest := ids - {x};
    assert ids == rest + {x};
    if rest == {} {
      assert Minimal(ids, x);
    } else {
      LeastExists(rest);
      var y :| Minimal(rest, y);
      assert Minimal(ids, if x <= y then x else y);
    }
  }

  function Least(ids: set<nat>): (i: nat)
    requires ids != {}
    ensures Minimal(ids, i)
  {
    LeastExists(ids);
    var i: nat :| Minimal(ids, i);
    i
  }

  function Ascending(ids: set<nat>): (r: seq<nat>)
    ensures forall id :: id in r <==> id in ids
    decreases |ids|
  {
    if ids == {} then [] else [Least(ids)] + Ascending(ids - {Least(ids)})
  }

  /** The id of the `count`th unread entry, or the newest id if there are fewer. */
  function Reach(server: Server, count: nat): (id: nat)
    ensures id >= server.lastRead
  {
    var ids := Ascending(Unread(server));
    assert forall i :: 0 <= i < |ids| ==> ids[i] in Unread(server);
    if count == 0 || ids == [] then server.lastRead
    else if count <= |ids| then ids[count - 1]
    else ids[|ids| - 1]
  }

  function ReadStep(s: State, name: string, count: nat): State {
    if name !in s.consumers then s else ReadUpTo(s, name, Reach(s.server, count))
  }

  function Issue(s: State, task: Task): State { s.(tasks := s.tasks[s.nextTask := task], nextTask := s.nextTask + 1) }

  /** The next entry of the batch is delivered, or discarded when it does not decode. */
  function Yielded(s: State, name: string): State {
    if name !in s.consumers || s.consumers[name].batch == [] || s.consumers[name].closing then s
    else
      var c := s.consumers[name];
      var id, rest := c.batch[0], c.(batch := c.batch[1..]);
      if id !in s.log.held || s.log.held[id] !in s.log.content then s
      else if !s.log.content[s.log.held[id]].decodes then Issue(With(s, name, rest), Task(name, id, Discarding))
      else With(s, name, rest.(inFlight := c.inFlight + {id}))
  }

  function Released(s: State, name: string, id: nat): State
    requires name in s.consumers
  {
    With(s, name, s.consumers[name].(inFlight := s.consumers[name].inFlight - {id}))
  }

  function AckStep(s: State, name: string, id: nat): State {
    if name !in s.consumers || id !in s.log.held then s
    else
      Issue(Released(s, name, id).(log := s.log.(acked := s.log.acked + {s.log.held[id]})), Task(name, id, Acking))
  }

  function RejectStep(s: State, name: string, id: nat, delay: real): State {
    if name !in s.consumers || id !in s.consumers[name].inFlight then s
    else Issue(Released(s, name, id), Task(name, id, Moving(delay)))
  }

  function Advanced(s: State, n: nat): State {
    if n !in s.tasks || s.tasks[n].id !in s.log.held || s.log.held[s.tasks[n].id] !in s.log.content then s
    else
      var t := s.tasks[n];
      match t.work
      case Moving(delay) =>
        Enqueue(s, Content(s.log.content[s.log.held[t.id]].message, true), delay)
        .(tasks := s.tasks[n := t.(work := Acking)])
      case Acking => XAck(s, t.id).(tasks := s.tasks[n := t.(work := Deleting)])
      case Deleting => XDel(s, t.id).(tasks := s.tasks - {n})
      case Discarding => XAck(s, t.id).(tasks := s.tasks - {n})
  }

  /** The script's reply is lost or an append fails: `get` ends with the error, the process lives on. */
  function PromotionFailed(s: State, name: string): State {
    if name !in s.consumers then s else With(s, name, s.consumers[name].(promoting := []))
  }

  /** The process dies, or its connection goes. */
  function Crashed(s: State, name: string): State {
    s.(consumers := s.consumers - {name}, tasks := map n | n in s.tasks && s.tasks[n].owner != name :: s.tasks[n])
  }

  function Step(s: State, ev: Event): State {
    match ev
    case Tick(d) => if d < 0.0 then s else s.(server := s.server.(clock := s.server.clock + d))
    case Start(name) => if name in s.consumers then s else With(s, name, Consumer([], [], {}, false))
    case Send(name, decodes, delay) => Sent(s, name, decodes, delay)
    case PopDue(name, order) => Popped(s, name, order)
    case AppendOne(name) => Promoted(s, name)
    case Reclaim(name, ids, minIdle) => Reclaimed(s, name, ids, minIdle)
    case Read(name, count) => ReadStep(s, name, count)
    case Yield(name) => Yielded(s, name)
    case Drop(name) => if name in s.consumers then With(s, name, s.consumers[name].(batch := [])) else s
    case Ack(name, id) => AckStep(s, name, id)
    case Reject(name, id, delay) => RejectStep(s, name, id, delay)
    case Advance(n) => Advanced(s, n)
    case Abandon(n) => s.(tasks := s.tasks - {n})
    case Close(name) => if name in s.consumers then With(s, name, s.consumers[name].(closing := true)) else s
    case FailPromotion(name) => PromotionFailed(s, name)
    case Crash(name) => Crashed(s, name)
  }

  function Run(s: State, events: seq<Event>): State
    decreases |events|
  {
    if events == [] then s else Run(Step(s, events[0]), events[1..])
  }

  // ---- Deliverability ----------------------------------------------------------------

  /** An unread entry, or a pending entry still in the stream. */
  predicate Waiting(server: Server, id: nat) { id in server.stream && (id > server.lastRead || id in server.pel) }

  predicate InStream(server: Server, copy: nat) {
    exists id :: id in server.stream && Waiting(server, id) && server.stream[id] == copy
  }

  predicate BeingPromoted(s: State, copy: nat) {
    exists name :: name in s.consumers && copy in s.consumers[name].promoting
  }

  predicate Deliverable(s: State, copy: nat) {
    copy in s.server.delayed || InStream(s.server, copy) || BeingPromoted(s, copy)
  }

  predicate Newest(log: Log, copy: nat) {
    copy in log.content && log.content[copy].message in log.latest && log.latest[log.content[copy].message] == copy
  }

  ghost predicate BooksMatch(s: State) {
    && (forall c: nat :: c in s.log.content <==> c < s.log.copies)
    && (forall m: nat :: m in s.log.latest <==> m < s.log.messages)
    && (forall c :: c in s.log.content ==> s.log.content[c].message < s.log.messages)
    && (forall m :: m in s.log.latest ==>
          s.log.latest[m] in s.log.content && s.log.content[s.log.latest[m]].message == m)
    && (forall id: nat :: id in s.log.held ==> id <= s.server.lastId && s.log.held[id] in s.log.content)
    && (forall id: nat :: id in s.server.stream ==> id in s.log.held && s.log.held[id] == s.server.stream[id])
    && s.server.lastRead <= s.server.lastId
  }

  ghost predicate TasksMatch(s: State) {
    && (forall n :: n in s.tasks ==>
          && n < s.nextTask && s.tasks[n].id in s.log.held && s.log.held[s.tasks[n].id] in s.log.content
          && var copy := s.log.held[s.tasks[n].id];
             match s.tasks[n].work
             case Moving(_) => s.log.content[copy].decodes
             case Discarding => !s.log.content[copy].decodes
             case _ => copy in s.log.acked || !Newest(s.log, copy))
    && (forall i :: i in s.consumers ==> forall id :: id in s.consumers[i].inFlight ==>
          id in s.log.held && s.log.held[id] in s.log.content && s.log.content[s.log.held[id]].decodes)
  }

  ghost predicate AllDeliverable(s: State) {
    forall c :: Newest(s.log, c) && s.log.content[c].decodes ==> c in s.log.acked || Deliverable(s, c)
  }

  ghost predicate Sound(s: State) { BooksMatch(s) && TasksMatch(s) && AllDeliverable(s) }

  // ---- Steps keep it -----------------------------------------------------------------

  /** An appended copy is in the stream, unread; what was deliverable still is. */
  lemma AppendDelivers(s: State, copy: nat)
    requires BooksMatch(s)
    ensures InStream(Append(s, copy).server, copy)
    ensures forall c :: InStream(s.server, c) ==> InStream(Append(s, copy).server, c)
  {
    var t := Append(s, copy);
    var id := s.server.lastId + 1;
    assert id in t.server.stream && Waiting(t.server, id) && t.server.stream[id] == copy;
    forall c | InStream(s.server, c) ensures InStream(t.server, c) {
      var x :| x in s.server.stream && Waiting(s.server, x) && s.server.stream[x] == c;
      assert x in t.server.stream && Waiting(t.server, x) && t.server.stream[x] == c;
    }
  }

  lemma RecordedKeepsBooks(s: State, c: Content)
    requires BooksMatch(s) && TasksMatch(s) && c.message <= s.log.messages
    ensures BooksMatch(Recorded(s, c)) && TasksMatch(Recorded(s, c))
  {
  }

  lemma PlacedKeepsBooks(s: State, copy: nat, delay: real)
    requires BooksMatch(s) && TasksMatch(s) && copy in s.log.content
    ensures BooksMatch(Append(s, copy)) && TasksMatch(Append(s, copy))
    ensures BooksMatch(Delay(s, copy, delay)) && TasksMatch(Delay(s, copy, delay))
  {
    AppendKeepsBooks(s, copy);
    hide Append, Newest;
  }

  lemma AppendKeepsBooks(s: State, copy: nat)
    requires BooksMatch(s) && TasksMatch(s) && copy in s.log.content
    ensures BooksMatch(Append(s, copy)) && TasksMatch(Append(s, copy))
  {
    assert forall c: nat :: Newest(Append(s, copy).log, c) <==> Newest(s.log, c);
    hide Newest;
  }

  /** The new copy is deliverable and the newest; older newest copies stay deliverable. */
  lemma EnqueueDelivers(s: State, c: Content, delay: real)
    requires BooksMatch(s) && AllDeliverable(s)
    ensures AllDeliverable(Enqueue(s, c, delay))
  {
    var t, u := Enqueue(s, c, delay), Recorded(s, c);
    if delay <= 0.0 {
      AppendDelivers(s, s.log.copies);
      assert t.server == Append(s, s.log.copies).server;
    }
    forall x | Newest(t.log, x) && t.log.content[x].decodes ensures x in t.log.acked || Deliverable(t, x) {
      if x != s.log.copies {
        assert Newest(s.log, x);
        assert x in s.log.acked || Deliverable(s, x);
        assert BeingPromoted(s, x) ==> BeingPromoted(t, x);
      }
    }
  }

  lemma EnqueueKeeps(s: State, c: Content, delay: real)
    requires Sound(s) && c.message <= s.log.messages
    ensures Sound(Enqueue(s, c, delay))
  {
    RecordedKeepsBooks(s, c);
    PlacedKeepsBooks(Recorded(s, c), s.log.copies, delay);
    EnqueueDelivers(s, c, delay);
    hide BooksMatch, TasksMatch, AllDeliverable, Append, Delay;
  }

  lemma SendKeeps(s: State, name: string, decodes: bool, delay: real)
    requires Sound(s)
    ensures Sound(Sent(s, name, decodes, delay))
  {
    EnqueueKeeps(s, Content(s.log.messages, decodes), delay);
    hide Enqueue, Sound;
  }

  /** A change that makes no copy newest or acked, and leaves every copy deliverable. */
  lemma SameLogKeeps(s: State, t: State)
    requires Sound(s) && BooksMatch(t) && TasksMatch(t)
    requires t.log.content == s.log.content && t.log.latest == s.log.latest && t.log.acked == s.log.acked
    requires forall c :: c in s.log.content && Deliverable(s, c) ==> Deliverable(t, c)
    ensures Sound(t)
  {
    hide Deliverable, BooksMatch, TasksMatch;
  }

  lemma PoppedKeeps(s: State, name: string, order: seq<nat>)
    requires Sound(s)
    ensures Sound(Popped(s, name, order))
  {
    var t := Popped(s, name, order);
    if CanPop(s, name, order) {
      forall c | c in s.log.content && Deliverable(s, c) ensures Deliverable(t, c) {
        if c in s.server.delayed && c in order {
          assert name in t.consumers && c in t.consumers[name].promoting;
        } else if BeingPromoted(s, c) {
          var i :| i in s.consumers && c in s.consumers[i].promoting;
          assert i in t.consumers && c in t.consumers[i].promoting;
        } else if InStream(s.server, c) {
          var x :| x in s.server.stream && Waiting(s.server, x) && s.server.stream[x] == c;
          assert x in t.server.stream && Waiting(t.server, x);
        }
      }
      hide Deliverable, AllDeliverable, InStream, BeingPromoted;
      SameLogKeeps(s, t);
    }
  }

  lemma PromotedDelivers(s: State, name: string, c: nat)
    requires BooksMatch(s) && Deliverable(s, c)
    ensures Deliverable(Promoted(s, name), c)
  {
    if name in s.consumers && s.consumers[name].promoting != [] {
      var t := Promoted(s, name);
      AppendDelivers(s, s.consumers[name].promoting[0]);
      if BeingPromoted(s, c) && c != s.consumers[name].promoting[0] {
        var i :| i in s.consumers && c in s.consumers[i].promoting;
        assert i in t.consumers && c in t.consumers[i].promoting;
      }
      hide InStream, BeingPromoted;
    }
  }

  lemma WithKeepsBooks(s: State, name: string, c: Consumer)
    requires BooksMatch(s) && TasksMatch(s) && name in s.consumers && c.inFlight <= s.consumers[name].inFlight
    ensures BooksMatch(With(s, name, c)) && TasksMatch(With(s, name, c))
  {
    hide Newest;
  }

  lemma PromotedKeeps(s: State, name: string)
    requires Sound(s)
    requires name in s.consumers && s.consumers[name].promoting != [] ==>
      s.consumers[name].promoting[0] in s.log.content
    ensures Sound(Promoted(s, name))
  {
    if name in s.consumers && s.consumers[name].promoting != [] {
      var u, t := Append(s, s.consumers[name].promoting[0]), Promoted(s, name);
      PlacedKeepsBooks(s, s.consumers[name].promoting[0], 0.0);
      assert t == With(u, name, u.consumers[name].(promoting := u.consumers[name].promoting[1..]));
      WithKeepsBooks(u, name, u.consumers[name].(promoting := u.consumers[name].promoting[1..]));
      forall c | c in s.log.content && Deliverable(s, c) ensures Deliverable(t, c) { PromotedDelivers(s, name, c); }
      hide Deliverable, AllDeliverable, BooksMatch, TasksMatch;
      SameLogKeeps(s, t);
    }
  }

  lemma ReclaimedKeeps(s: State, name: string, ids: seq<nat>, minIdle: real)
    requires Sound(s)
    ensures Sound(Reclaimed(s, name, ids, minIdle))
  {
    var t := Reclaimed(s, name, ids, minIdle);
    if CanReclaim(s, name, ids, minIdle) {
      forall c | c in s.log.content && Deliverable(s, c) ensures Deliverable(t, c) {
        if InStream(s.server, c) {
          var x :| x in s.server.stream && Waiting(s.server, x) && s.server.stream[x] == c;
          assert x in t.server.stream && Waiting(t.server, x);
        } else if BeingPromoted(s, c) {
          var i :| i in s.consumers && c in s.consumers[i].promoting;
          assert i in t.consumers && c in t.consumers[i].promoting;
        }
      }
      hide Deliverable, AllDeliverable, InStream, BeingPromoted;
      SameLogKeeps(s, t);
    }
  }

  lemma ReadSpares(s: State, name: string, upTo: nat, c: nat)
    requires name in s.consumers && upTo >= s.server.lastRead && Deliverable(s, c)
    ensures Deliverable(ReadUpTo(s, name, upTo), c)
  {
    var t := ReadUpTo(s, name, upTo);
    if InStream(s.server, c) {
      var x :| x in s.server.stream && Waiting(s.server, x) && s.server.stream[x] == c;
      assert x in t.server.stream && Waiting(t.server, x);
    } else if BeingPromoted(s, c) {
      var i :| i in s.consumers && c in s.consumers[i].promoting;
      assert i in t.consumers && c in t.consumers[i].promoting;
    }
  }

  lemma ReadKeeps(s: State, name: string, count: nat)
    requires Sound(s)
    ensures Sound(ReadStep(s, name, count))
  {
    if name in s.consumers {
      ReachIsKnown(s, count);
      var t := ReadStep(s, name, count);
      hide Reach, Newest, AllDeliverable, Ascending;
      assert BooksMatch(t) && TasksMatch(t);
      forall c | c in s.log.content && Deliverable(s, c) ensures Deliverable(t, c) {
        ReadSpares(s, name, Reach(s.server, count), c);
      }
      hide Deliverable, BooksMatch, TasksMatch;
      SameLogKeeps(s, t);
    }
  }

  lemma ReachIsKnown(s: State, count: nat)
    requires BooksMatch(s)
    ensures s.server.lastRead <= Reach(s.server, count) <= s.server.lastId
  {
    var ids := Ascending(Unread(s.server));
    assert forall i :: 0 <= i < |ids| ==> ids[i] in Unread(s.server);
  }

  /** Consumers and tasks change, the server and the promotions under way do not. */
  lemma LocalKeeps(s: State, t: State)
    requires Sound(s) && TasksMatch(t) && t.server == s.server
    requires t.log == s.log.(acked := t.log.acked) && s.log.acked <= t.log.acked
    requires forall i :: i in s.consumers && s.consumers[i].promoting != [] ==>
      i in t.consumers && t.consumers[i].promoting == s.consumers[i].promoting
    ensures Sound(t)
  {
    assert BooksMatch(t) by { hide TasksMatch, AllDeliverable; }
    forall c | Newest(t.log, c) && t.log.content[c].decodes ensures c in t.log.acked || Deliverable(t, c) {
      assert Newest(s.log, c);
      assert BeingPromoted(s, c) ==> BeingPromoted(t, c);
    }
  }

  lemma IssueKeepsTasks(s: State, task: Task)
    requires BooksMatch(s) && TasksMatch(s) && task.id in s.log.held
    requires var copy := s.log.held[task.id];
      match task.work
      case Moving(_) => s.log.content[copy].decodes
      case Discarding => !s.log.content[copy].decodes
      case _ => copy in s.log.acked
    ensures TasksMatch(Issue(s, task))
  {
    hide Newest;
  }

  lemma YieldedKeepsTasks(s: State, name: string)
    requires BooksMatch(s) && TasksMatch(s)
    ensures TasksMatch(Yielded(s, name))
  {
    hide Newest;
    if name in s.consumers && s.consumers[name].batch != [] {
      var rest := s.consumers[name].(batch := s.consumers[name].batch[1..]);
      WithKeepsBooks(s, name, rest);
      var u, id := With(s, name, rest), s.consumers[name].batch[0];
      if id in s.log.held && s.log.held[id] in s.log.content && !s.log.content[s.log.held[id]].decodes {
        IssueKeepsTasks(u, Task(name, id, Discarding));
      }
    }
  }

  lemma YieldedKeeps(s: State, name: string)
    requires Sound(s)
    ensures Sound(Yielded(s, name))
  {
    YieldedKeepsTasks(s, name);
    hide BooksMatch, TasksMatch, AllDeliverable;
    LocalKeeps(s, Yielded(s, name));
  }

  lemma AckedKeepsBooks(s: State, copy: nat)
    requires BooksMatch(s) && TasksMatch(s)
    ensures var t := s.(log := s.log.(acked := s.log.acked + {copy})); BooksMatch(t) && TasksMatch(t)
  {
  }

  lemma AckKeeps(s: State, name: string, id: nat)
    requires Sound(s)
    ensures Sound(AckStep(s, name, id))
  {
    var t := AckStep(s, name, id);
    if name in s.consumers && id in s.log.held {
      var c := s.consumers[name].(inFlight := s.consumers[name].inFlight - {id});
      var v := With(s, name, c);
      WithKeepsBooks(s, name, c);
      AckedKeepsBooks(v, s.log.held[id]);
      var u := v.(log := v.log.(acked := v.log.acked + {s.log.held[id]}));
      IssueKeepsTasks(u, Task(name, id, Acking));
      assert t == Issue(u, Task(name, id, Acking));
      hide BooksMatch, TasksMatch, AllDeliverable;
      LocalKeeps(s, t);
    }
  }

  lemma RejectKeeps(s: State, name: string, id: nat, delay: real)
    requires Sound(s)
    ensures Sound(RejectStep(s, name, id, delay))
  {
    if name in s.consumers && id in s.consumers[name].inFlight {
      var c := s.consumers[name].(inFlight := s.consumers[name].inFlight - {id});
      WithKeepsBooks(s, name, c);
      IssueKeepsTasks(With(s, name, c), Task(name, id, Moving(delay)));
      hide BooksMatch, TasksMatch, AllDeliverable;
      LocalKeeps(s, RejectStep(s, name, id, delay));
    }
  }

  /** Neither command takes away a copy held under another id. */
  lemma CommandsSpare(s: State, id: nat, c: nat)
    requires BooksMatch(s) && Deliverable(s, c) && (id in s.log.held ==> s.log.held[id] != c)
    ensures Deliverable(XAck(s, id), c) && Deliverable(XDel(s, id), c)
  {
    var t, u := XAck(s, id), XDel(s, id);
    if BeingPromoted(s, c) {
      var i :| i in s.consumers && c in s.consumers[i].promoting;
      assert i in t.consumers && c in t.consumers[i].promoting && i in u.consumers && c in u.consumers[i].promoting;
    } else if InStream(s.server, c) {
      var x :| x in s.server.stream && Waiting(s.server, x) && s.server.stream[x] == c;
      assert x in s.log.held && s.log.held[x] == c && x != id;
      assert x in t.server.stream && Waiting(t.server, x);
      assert x in u.server.stream && Waiting(u.server, x);
    }
  }

  lemma CommandsKeepBooks(s: State, id: nat)
    requires BooksMatch(s) && TasksMatch(s)
    ensures BooksMatch(XAck(s, id)) && TasksMatch(XAck(s, id))
    ensures BooksMatch(XDel(s, id)) && TasksMatch(XDel(s, id))
  {
    hide Newest;
  }

  /** XACK and XDEL of an entry whose copy is acked, superseded or undecodable take nothing deliverable away. */
  lemma CommandsKeep(s: State, id: nat)
    requires Sound(s) && id in s.log.held && s.log.held[id] in s.log.content
    requires var copy := s.log.held[id];
      copy in s.log.acked || !Newest(s.log, copy) || !s.log.content[copy].decodes
    ensures Sound(XAck(s, id)) && Sound(XDel(s, id))
  {
    CommandsKeepBooks(s, id);
    hide BooksMatch, TasksMatch, Deliverable;
    forall c | Newest(s.log, c) && s.log.content[c].decodes && c !in s.log.acked
      ensures Deliverable(XAck(s, id), c) && Deliverable(XDel(s, id), c)
    {
      CommandsSpare(s, id, c);
    }
  }

  lemma RetaskKeeps(s: State, n: nat, work: Option<Work>)
    requires Sound(s) && n in s.tasks
    requires work.Some? ==>
      && (work.value.Acking? || work.value.Deleting?)
      && (s.log.held[s.tasks[n].id] in s.log.acked || !Newest(s.log, s.log.held[s.tasks[n].id]))
    ensures Sound(s.(tasks := if work.Some? then s.tasks[n := s.tasks[n].(work := work.value)] else s.tasks - {n}))
  {
    var t := s.(tasks := if work.Some? then s.tasks[n := s.tasks[n].(work := work.value)] else s.tasks - {n});
    assert TasksMatch(t) by { hide AllDeliverable, Newest; }
    hide BooksMatch, TasksMatch, AllDeliverable;
    LocalKeeps(s, t);
  }

  /** After the enqueue the original is no longer the newest copy. */
  lemma MovedIsSuperseded(s: State, copy: nat, delay: real)
    requires BooksMatch(s) && copy in s.log.content
    ensures !Newest(Enqueue(s, Content(s.log.content[copy].message, true), delay).log, copy)
  {
  }

  lemma AdvancedKeeps(s: State, n: nat)
    requires Sound(s)
    ensures Sound(Advanced(s, n))
  {
    if n in s.tasks && s.tasks[n].id in s.log.held && s.log.held[s.tasks[n].id] in s.log.content {
      var t := s.tasks[n];
      var copy := s.log.held[t.id];
      assert s.log.content[copy].message < s.log.messages;
      hide BooksMatch, AllDeliverable, Newest;
      match t.work
      case Moving(delay) =>
        EnqueueKeeps(s, Content(s.log.content[copy].message, true), delay);
        MovedIsSuperseded(s, copy, delay);
        EnqueueIsRemote(s, Content(s.log.content[copy].message, true), delay);
        hide TasksMatch, Enqueue;
        RetaskKeeps(Enqueue(s, Content(s.log.content[copy].message, true), delay), n, Some(Acking));
      case Acking =>
        CommandsKeep(s, t.id);
        hide TasksMatch;
        RetaskKeeps(XAck(s, t.id), n, Some(Deleting));
      case Deleting =>
        CommandsKeep(s, t.id);
        hide TasksMatch;
        RetaskKeeps(XDel(s, t.id), n, None);
      case Discarding =>
        CommandsKeep(s, t.id);
        hide TasksMatch;
        RetaskKeeps(XAck(s, t.id), n, None);
    }
  }

  /** An enqueue touches no task and no existing entry's copy. */
  lemma EnqueueIsRemote(s: State, c: Content, delay: real)
    requires BooksMatch(s)
    ensures Enqueue(s, c, delay).tasks == s.tasks
    ensures forall id :: id in s.log.held ==>
      id in Enqueue(s, c, delay).log.held && Enqueue(s, c, delay).log.held[id] == s.log.held[id]
  {
  }

  /** A process that is not in the middle of a promotion may die. */
  lemma CrashKeeps(s: State, name: string)
    requires Sound(s) && (name in s.consumers ==> s.consumers[name].promoting == [])
    ensures Sound(Crashed(s, name))
  {
    assert TasksMatch(Crashed(s, name)) by { hide Newest; }
    hide BooksMatch, TasksMatch, AllDeliverable;
    LocalKeeps(s, Crashed(s, name));
  }

  lemma TickKeepsBooks(s: State, elapsed: real)
    requires BooksMatch(s) && TasksMatch(s)
    ensures BooksMatch(Step(s, Tick(elapsed))) && TasksMatch(Step(s, Tick(elapsed)))
  {
    hide Newest;
  }

  lemma TickKeeps(s: State, elapsed: real)
    requires Sound(s)
    ensures Sound(Step(s, Tick(elapsed)))
  {
    var t := Step(s, Tick(elapsed));
    TickKeepsBooks(s, elapsed);
    forall c | c in s.log.content && Deliverable(s, c) ensures Deliverable(t, c) {
      TickSpares(s, elapsed, c);
    }
    hide Deliverable, BooksMatch, TasksMatch, AllDeliverable, Step;
    SameLogKeeps(s, t);
  }

  lemma ChangedKeeps(s: State, name: string, c: Consumer)
    requires Sound(s) && name in s.consumers
    requires c.inFlight <= s.consumers[name].inFlight && c.promoting == s.consumers[name].promoting
    ensures Sound(With(s, name, c))
  {
    WithKeepsBooks(s, name, c);
    hide BooksMatch, TasksMatch, AllDeliverable;
    LocalKeeps(s, With(s, name, c));
  }

  lemma StartAndAbandonKeep(s: State, name: string, n: nat)
    requires Sound(s)
    ensures Sound(Step(s, Start(name))) && Sound(s.(tasks := s.tasks - {n}))
  {
    var t, u := Step(s, Start(name)), s.(tasks := s.tasks - {n});
    assert TasksMatch(t) && TasksMatch(u) by { hide Newest, AllDeliverable; }
    hide BooksMatch, TasksMatch, AllDeliverable;
    LocalKeeps(s, t);
    LocalKeeps(s, u);
  }

  lemma TickSpares(s: State, elapsed: real, c: nat)
    requires Deliverable(s, c)
    ensures Deliverable(Step(s, Tick(elapsed)), c)
  {
    var t := Step(s, Tick(elapsed));
    if InStream(s.server, c) {
      var x :| x in s.server.stream && Waiting(s.server, x) && s.server.stream[x] == c;
      assert x in t.server.stream && Waiting(t.server, x);
    } else if BeingPromoted(s, c) {
      var i :| i in s.consumers && c in s.consumers[i].promoting;
      assert i in t.consumers && c in t.consumers[i].promoting;
    }
  }

  // ---- Delayed messages --------------------------------------------------------------

  predicate Promotes(s: State, name: string, c: nat) { name in s.consumers && c in s.consumers[name].promoting }

  /** A delayed copy waits until it is due, and reaches the stream then or later. */
  ghost predicate DelaysMatch(s: State) {
    && (forall c: nat :: c in s.log.content <==> c < s.log.copies)
    && (forall c: nat :: c in s.log.due ==> c in s.log.content)
    && (forall c: nat :: c in s.server.delayed ==> c in s.log.due && s.log.due[c] == s.server.delayed[c])
    && (forall i, c: nat :: Promotes(s, i, c) ==> c in s.log.due && s.log.due[c] <= s.server.clock)
    && (forall id: nat :: id in s.log.held ==>
          id in s.log.appended && id <= s.server.lastId && s.log.held[id] < s.log.copies)
    && (forall id: nat :: id in s.log.held && id in s.log.appended && s.log.held[id] in s.log.due ==>
          s.log.due[s.log.held[id]] <= s.log.appended[id])
  }

  /** A copy that is delayed or being promoted is nowhere else. */
  ghost predicate DelaysAlone(s: State) {
    && (forall id: nat :: id in s.server.stream ==> id in s.log.held && s.log.held[id] == s.server.stream[id])
    && (forall c: nat, id: nat :: c in s.server.delayed && id in s.log.held ==> s.log.held[id] != c)
    && (forall i, c: nat, id: nat :: Promotes(s, i, c) && id in s.log.held ==> s.log.held[id] != c)
    && (forall i, c: nat :: Promotes(s, i, c) ==> c !in s.server.delayed)
    && (forall i, j, c: nat :: Promotes(s, i, c) && Promotes(s, j, c) ==> i == j)
    && (forall i, j, k :: i in s.consumers && 0 <= j < k < |s.consumers[i].promoting| ==>
          s.consumers[i].promoting[j] != s.consumers[i].promoting[k])
  }

  lemma EnqueueKeepsDelays(s: State, c: Content, delay: real)
    requires DelaysMatch(s)
    ensures DelaysMatch(Enqueue(s, c, delay))
  {
    var t := Enqueue(s, c, delay);
    assert forall i, x: nat :: Promotes(t, i, x) ==> Promotes(s, i, x);
    hide Promotes;
  }

  /** A copy not seen before is nowhere. */
  lemma UnknownIsNowhere(s: State, c: nat)
    requires DelaysMatch(s) && c >= s.log.copies
    ensures c !in s.server.delayed
    ensures forall i :: !Promotes(s, i, c)
    ensures forall id: nat :: id in s.log.held ==> s.log.held[id] != c
  {
    assert forall i, x: nat :: Promotes(s, i, x) ==> x in s.log.content;
    hide Promotes;
  }

  lemma AppendKeepsAlone(s: State, copy: nat)
    requires DelaysAlone(s) && copy !in s.server.delayed && forall i :: !Promotes(s, i, copy)
    requires forall id: nat :: id in s.log.held ==> id <= s.server.lastId
    ensures DelaysAlone(Append(s, copy))
  {
    assert forall i, x: nat :: Promotes(Append(s, copy), i, x) <==> Promotes(s, i, x);
    hide Promotes;
  }

  lemma DelayKeepsAlone(s: State, copy: nat, delay: real)
    requires DelaysAlone(s) && forall i :: !Promotes(s, i, copy)
    requires forall id: nat :: id in s.log.held ==> s.log.held[id] != copy
    ensures DelaysAlone(Delay(s, copy, delay))
  {
    assert forall i, x: nat :: Promotes(Delay(s, copy, delay), i, x) <==> Promotes(s, i, x);
    hide Promotes;
  }

  lemma EnqueueKeepsAlone(s: State, c: Content, delay: real)
    requires DelaysMatch(s) && DelaysAlone(s)
    ensures DelaysAlone(Enqueue(s, c, delay))
  {
    var u := Recorded(s, c);
    UnknownIsNowhere(s, s.log.copies);
    assert forall id: nat :: id in s.log.held ==> id <= s.server.lastId;
    assert forall i, x: nat :: Promotes(u, i, x) <==> Promotes(s, i, x);
    assert DelaysAlone(u) by { hide DelaysMatch, Promotes; }
    hide DelaysMatch, DelaysAlone, Promotes;
    if delay > 0.0 { DelayKeepsAlone(u, s.log.copies, delay); } else { AppendKeepsAlone(u, s.log.copies); }
  }

  lemma PoppedKeepsDelays(s: State, name: string, order: seq<nat>)
    requires DelaysMatch(s)
    ensures DelaysMatch(Popped(s, name, order))
  {
    var t := Popped(s, name, order);
    assert forall i, x: nat :: Promotes(t, i, x) ==>
      Promotes(s, i, x) || (x in s.server.delayed && s.server.delayed[x] <= s.server.clock);
    hide Promotes;
  }

  lemma PoppedKeepsAlone(s: State, name: string, order: seq<nat>)
    requires DelaysMatch(s) && DelaysAlone(s)
    ensures DelaysAlone(Popped(s, name, order))
  {
    var t := Popped(s, name, order);
    assert CanPop(s, name, order) ==>
      forall i, x: nat :: Promotes(t, i, x) ==>
        (Promotes(s, i, x) && i != name) || (i == name && x in order && x in s.server.delayed);
    hide Promotes;
  }

  lemma PromotedKeepsDelays(s: State, name: string)
    requires DelaysMatch(s)
    ensures DelaysMatch(Promoted(s, name))
  {
    var t := Promoted(s, name);
    if name in s.consumers && s.consumers[name].promoting != [] {
      assert Promotes(s, name, s.consumers[name].promoting[0]);
    }
    assert forall i, x: nat :: Promotes(t, i, x) ==> Promotes(s, i, x);
    hide Promotes;
  }

  lemma PromotedKeepsAlone(s: State, name: string)
    requires DelaysMatch(s) && DelaysAlone(s)
    ensures DelaysAlone(Promoted(s, name))
  {
    var t := Promoted(s, name);
    if name in s.consumers && s.consumers[name].promoting != [] {
      var copy := s.consumers[name].promoting[0];
      assert Promotes(s, name, copy);
      assert forall i, x: nat :: Promotes(t, i, x) ==> Promotes(s, i, x);
      assert !Promotes(t, name, copy);
    }
    hide Promotes;
  }

  /** The other steps append nothing, pop nothing and promote nothing new. */
  ghost predicate Quiet(s: State, t: State) {
    && t.log.content == s.log.content && t.log.copies == s.log.copies && t.log.due == s.log.due
    && t.log.held == s.log.held && t.log.appended == s.log.appended
    && t.server.delayed == s.server.delayed && t.server.lastId == s.server.lastId && t.server.clock >= s.server.clock
    && (forall id: nat :: id in t.server.stream ==> id in s.server.stream && t.server.stream[id] == s.server.stream[id])
    && (forall i :: i in t.consumers && t.consumers[i].promoting != [] ==>
          i in s.consumers && t.consumers[i].promoting == s.consumers[i].promoting)
  }

  lemma QuietKeepsDelays(s: State, t: State)
    requires DelaysMatch(s) && DelaysAlone(s) && Quiet(s, t)
    ensures DelaysMatch(t) && DelaysAlone(t)
  {
    assert forall i, x: nat :: Promotes(t, i, x) ==> Promotes(s, i, x);
    assert DelaysMatch(t) by { hide Promotes, DelaysAlone; }
    QuietKeepsAlone(s, t);
  }

  lemma QuietKeepsAlone(s: State, t: State)
    requires DelaysAlone(s) && Quiet(s, t)
    ensures DelaysAlone(t)
  {
    assert forall i, x: nat :: Promotes(t, i, x) ==> Promotes(s, i, x);
    hide Promotes;
  }

  lemma StepKeepsDelays(s: State, ev: Event)
    requires DelaysMatch(s) && DelaysAlone(s)
    ensures DelaysMatch(Step(s, ev)) && DelaysAlone(Step(s, ev))
  {
    hide DelaysMatch, DelaysAlone;
    match ev
    case Send(name, decodes, delay) =>
      EnqueueKeepsDelays(s, Content(s.log.messages, decodes), delay);
      EnqueueKeepsAlone(s, Content(s.log.messages, decodes), delay);
      hide Enqueue;
    case PopDue(name, order) =>
      PoppedKeepsDelays(s, name, order);
      PoppedKeepsAlone(s, name, order);
      hide Popped;
    case AppendOne(name) =>
      PromotedKeepsDelays(s, name);
      PromotedKeepsAlone(s, name);
      hide Promoted;
    case Advance(n) =>
      AdvancedKeepsDelays(s, n);
      hide Advanced;
    case _ =>
      OthersAreQuiet(s, ev);
      QuietKeepsDelays(s, Step(s, ev));
      hide Step;
  }

  lemma OthersAreQuiet(s: State, ev: Event)
    requires !ev.Send? && !ev.PopDue? && !ev.AppendOne? && !ev.Advance?
    ensures Quiet(s, Step(s, ev))
  {
    hide Present, Ascending, Reach, Unread;
  }

  lemma AdvancedKeepsDelays(s: State, n: nat)
    requires DelaysMatch(s) && DelaysAlone(s)
    ensures DelaysMatch(Advanced(s, n)) && DelaysAlone(Advanced(s, n))
  {
    hide DelaysMatch, DelaysAlone;
    var t := Advanced(s, n);
    if t == s {
    } else if s.tasks[n].work.Moving? {
      var c := Content(s.log.content[s.log.held[s.tasks[n].id]].message, true);
      EnqueueKeepsDelays(s, c, s.tasks[n].work.delay);
      EnqueueKeepsAlone(s, c, s.tasks[n].work.delay);
      QuietKeepsDelays(Enqueue(s, c, s.tasks[n].work.delay), t);
    } else {
      QuietKeepsDelays(s, t);
    }
  }

  lemma {:induction false} RunKeepsDelays(s: State, events: seq<Event>)
    requires DelaysMatch(s) && DelaysAlone(s)
    ensures DelaysMatch(Run(s, events)) && DelaysAlone(Run(s, events))
    decreases |events|
  {
    if events != [] {
      StepKeepsDelays(s, events[0]);
      hide DelaysMatch, DelaysAlone, Step;
      RunKeepsDelays(Step(s, events[0]), events[1..]);
    }
  }

  /** In any run, crashes included, no delayed copy is in the stream before it is due. */
  lemma NeverBeforeDue(s: State, events: seq<Event>, id: nat)
    requires Initial(s) && id in Run(s, events).log.held && Run(s, events).log.held[id] in Run(s, events).log.due
    ensures var log := Run(s, events).log; id in log.appended && log.appended[id] >= log.due[log.held[id]]
  {
    RunKeepsDelays(s, events);
    hide Run;
  }

  // ---- Every run ---------------------------------------------------------------------

  predicate BreaksOff(ev: Event) { ev.Crash? || ev.FailPromotion? }

  /** No process dies, and no connection is quit and no append fails, between a pop and the last of its appends. */
  predicate Calm(s: State, ev: Event) {
    BreaksOff(ev) && ev.name in s.consumers ==> s.consumers[ev.name].promoting == []
  }

  predicate CalmRun(s: State, events: seq<Event>)
    decreases |events|
  {
    events != [] ==> Calm(s, events[0]) && CalmRun(Step(s, events[0]), events[1..])
  }

  lemma StepKeeps(s: State, ev: Event)
    requires Sound(s) && DelaysMatch(s) && Calm(s, ev)
    ensures Sound(Step(s, ev))
  {
    match ev
    case AppendOne(name) =>
      assert name in s.consumers && s.consumers[name].promoting != [] ==>
        Promotes(s, name, s.consumers[name].promoting[0]);
      hide Sound;
      PromotedKeeps(s, name);
    case _ => hide DelaysMatch, Sound; PlainStepKeeps(s, ev);
  }

  lemma PlainStepKeeps(s: State, ev: Event)
    requires Sound(s) && Calm(s, ev) && !ev.AppendOne?
    ensures Sound(Step(s, ev))
  {
    hide Sound, Sent, Popped, Reclaimed, ReadStep, Yielded, AckStep, RejectStep, Advanced, Crashed;
    match ev
    case Tick(d) => TickKeeps(s, d);
    case Start(name) => StartAndAbandonKeep(s, name, 0);
    case Send(name, decodes, delay) => SendKeeps(s, name, decodes, delay);
    case PopDue(name, order) => PoppedKeeps(s, name, order);
    case Reclaim(name, ids, minIdle) => ReclaimedKeeps(s, name, ids, minIdle);
    case Read(name, count) => ReadKeeps(s, name, count);
    case Yield(name) => YieldedKeeps(s, name);
    case Drop(name) => if name in s.consumers { ChangedKeeps(s, name, s.consumers[name].(batch := [])); }
    case Ack(name, id) => AckKeeps(s, name, id);
    case Reject(name, id, delay) => RejectKeeps(s, name, id, delay);
    case Advance(n) => AdvancedKeeps(s, n);
    case Abandon(n) => StartAndAbandonKeep(s, "", n);
    case Close(name) => if name in s.consumers { ChangedKeeps(s, name, s.consumers[name].(closing := true)); }
    case FailPromotion(name) =>
      if name in s.consumers { ChangedKeeps(s, name, s.consumers[name].(promoting := [])); }
    case Crash(name) => CrashKeeps(s, name);
  }

  lemma {:induction false} RunKeeps(s: State, events: seq<Event>)
    requires Sound(s) && DelaysMatch(s) && DelaysAlone(s) && CalmRun(s, events)
    ensures Sound(Run(s, events))
    decreases |events|
  {
    if events != [] {
      StepKeeps(s, events[0]);
      StepKeepsDelays(s, events[0]);
      hide Sound, DelaysMatch, DelaysAlone, Step;
      RunKeeps(Step(s, events[0]), events[1..]);
    }
  }

  /**
   * Deliverability: after any run in which no process dies in the middle of a promotion, every
   * message sent as decodable has a newest copy that someone acked, or that is an unread entry,
   * a pending entry still in the stream, a delayed member, or popped and about to be appended.
   */
  lemma AlwaysDeliverable(s: State, events: seq<Event>, m: nat)
    requires Initial(s) && CalmRun(s, events)
    requires m < Run(s, events).log.messages
    ensures var t := Run(s, events);
      && m in t.log.latest && t.log.latest[m] in t.log.content && t.log.content[t.log.latest[m]].message == m
      && (t.log.content[t.log.latest[m]].decodes ==> t.log.latest[m] in t.log.acked || Deliverable(t, t.log.latest[m]))
  {
    InitialIsSound(s);
    RunKeeps(s, events);
    hide Run, CalmRun, Deliverable;
    var t := Run(s, events);
    assert Newest(t.log, t.log.latest[m]);
  }

  lemma InitialIsSound(s: State)
    requires Initial(s)
    ensures Sound(s) && DelaysMatch(s) && DelaysAlone(s)
  {
  }

  /**
   * The excluded crash, or failed append, loses a message exactly when it was popped and not yet
   * appended: some newest copy of a decodable message is then deliverable no longer.
   */
  lemma PromotionCrashLosesIff(s: State, events: seq<Event>, name: string)
    requires Initial(s) && CalmRun(s, events)
    ensures var t := Run(s, events);
      && (AllDeliverable(Crashed(t, name)) <==> NoneOwed(t, name))
      && (AllDeliverable(PromotionFailed(t, name)) <==> NoneOwed(t, name))
  {
    InitialIsSound(s);
    RunKeeps(s, events);
    RunKeepsDelays(s, events);
    var t := Run(s, events);
    BothForget(t, name);
    hide Run, CalmRun, AllDeliverable, DelaysMatch, DelaysAlone, Newest, Crashed, PromotionFailed, Forgets, NoneOwed;
    ForgettingLosesIff(t, Crashed(t, name), name);
    ForgettingLosesIff(t, PromotionFailed(t, name), name);
  }

  /** All that `name` is promoting was superseded or acked, or does not decode. */
  ghost predicate NoneOwed(s: State, name: string) {
    forall c :: Promotes(s, name, c) && Newest(s.log, c) && s.log.content[c].decodes ==> c in s.log.acked
  }

  /** `t` is `s` without the promotion of `name`. */
  ghost predicate Forgets(s: State, t: State, name: string) {
    t.server == s.server && t.log == s.log && forall i, c :: Promotes(t, i, c) <==> Promotes(s, i, c) && i != name
  }

  lemma BothForget(s: State, name: string)
    ensures Forgets(s, Crashed(s, name), name) && Forgets(s, PromotionFailed(s, name), name)
  {
    forall i, c ensures Promotes(Crashed(s, name), i, c) <==> Promotes(s, i, c) && i != name {
      assert i in Crashed(s, name).consumers <==> i in s.consumers && i != name;
    }
  }

  lemma ForgettingLosesIff(s: State, t: State, name: string)
    requires Sound(s) && DelaysAlone(s) && Forgets(s, t, name)
    ensures AllDeliverable(t) <==> NoneOwed(s, name)
  {
    forall c: nat | Deliverable(s, c) ensures Deliverable(t, c) <==> !Promotes(s, name, c) {
      ForgettingTakes(s, t, name, c);
    }
    hide Deliverable, BooksMatch, TasksMatch, DelaysAlone, Promotes;
    forall c ensures Newest(t.log, c) <==> Newest(s.log, c) { SameNewest(s.log, t.log, c); }
  }

  lemma SameNewest(a: Log, b: Log, c: nat)
    requires a == b
    ensures Newest(a, c) <==> Newest(b, c)
  {
  }

  lemma PromotedBySome(s: State, c: nat)
    ensures BeingPromoted(s, c) <==> exists i :: Promotes(s, i, c)
  {
    if BeingPromoted(s, c) {
      var i :| i in s.consumers && c in s.consumers[i].promoting;
      assert Promotes(s, i, c);
    }
  }

  lemma ForgettingTakes(s: State, t: State, name: string, c: nat)
    requires DelaysAlone(s) && Deliverable(s, c) && Forgets(s, t, name)
    ensures Deliverable(t, c) <==> !Promotes(s, name, c)
  {
    PromotedBySome(s, c);
    PromotedBySome(t, c);
    if Promotes(s, name, c) {
      assert c !in s.server.delayed && !InStream(s.server, c);
    }
    hide Promotes, InStream, BeingPromoted;
  }
}
