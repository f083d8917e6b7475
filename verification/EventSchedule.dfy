/**
 The actor's persisted event queue and its alarm: scheduling, running on an alarm, and restarting
 from an older snapshot of the queue. Event identifiers are numbers handed out in insertion order;
 they stand for the source's random UUIDs.
 */
module EventSchedule {
  import opened Wrappers

  datatype Event = Event(id: nat, t: int, action: string, args: seq<string>)

  /** The order in which events must run: by time, and by insertion among equal times. */
  predicate Before(a: Event, b: Event) {
    a.t < b.t || (a.t == b.t && a.id < b.id)
  }

  predicate Ordered(q: seq<Event>) {
    forall i, j | 0 <= i < j < |q| :: Before(q[i], q[j])
  }

  /**
   The driver's alarm. The memory driver starts one more timer per call, the Cloudflare
   driver has a single slot in which the last call wins. Alarms are named by the instant they were set for.
   */
  datatype Alarms = Timers(pending: multiset<int>) | Slot(at: Option<int>)
  {
    function Set(t: int): Alarms {
      if Timers? then Timers(pending + multiset{t}) else Slot(Some(t))
    }

    predicate Outstanding(t: int) {
      if Timers? then t in pending else at == Some(t)
    }

    /** The alarm without the one that is firing. */
    function Fired(t: int): Alarms {
      if Timers? then Timers(pending - multiset{t}) else Slot(None)
    }

    /** Timers die with the process, a slot is kept by the platform. */
    function AfterRestart(): Alarms {
      if Timers? then Timers(multiset{}) else this
    }
  }

  /** `findIndex((x) => x.t > t)`, looking at the queue from index `from` on. */
  function FindLater(q: seq<Event>, t: int, from: nat := 0): (i: int)
    requires from <= |q| && forall k | 0 <= k < from :: q[k].t <= t
    ensures -1 <= i < |q|
    ensures i == -1 ==> forall k | 0 <= k < |q| :: q[k].t <= t
    ensures i != -1 ==> t < q[i].t && forall k | 0 <= k < i :: q[k].t <= t
    decreases |q| - from
  {
    if from == |q| then -1
    else if t < q[from].t then from
    else FindLater(q, t, from + 1)
  }

  /** `findIndex((x) => x.t <= now)`, looking at the queue from index `from` on. */
  function FindDue(q: seq<Event>, now: int, from: nat := 0): (i: int)
    requires from <= |q| && forall k | 0 <= k < from :: now < q[k].t
    ensures -1 <= i < |q|
    ensures i == -1 ==> forall k | 0 <= k < |q| :: now < q[k].t
    ensures i != -1 ==> q[i].t <= now && forall k | 0 <= k < i :: now < q[k].t
    decreases |q| - from
  {
    if from == |q| then -1
    else if q[from].t <= now then from
    else FindDue(q, now, from + 1)
  }

  function Insert(q: seq<Event>, e: Event): seq<Event> {
    var i := FindLater(q, e.t);
    if i == -1 then q + [e] else q[..i] + [e] + q[i..]
  }

  /** How many events an alarm at `now` splices off the front of the queue. */
  function RunCount(q: seq<Event>, now: int): (n: nat)
    ensures n <= |q|
  {
    FindDue(q, now) + 1
  }

  /** The alarm is set again when the new event is the head of the queue. */
  function Scheduled(q: seq<Event>, alarms: Alarms, event: Event): (seq<Event>, Alarms) {
    var q' := Insert(q, event);
    (q', if FindLater(q, event.t) == 0 || |q'| == 1 then alarms.Set(event.t) else alarms)
  }

  /** What an alarm at `now` runs, and the queue and alarm it leaves. */
  function Alarmed(q: seq<Event>, alarms: Alarms, now: int): (seq<Event>, seq<Event>, Alarms) {
    var n := RunCount(q, now);
    (q[..n], q[n..], if n != 0 && q[n..] != [] then alarms.Set(q[n].t) else alarms)
  }

  /** A new alarm is outstanding; timers accumulate, and the slot forgets what it held; firing takes one alarm. */
  lemma AlarmMeaning(alarms: Alarms, t: int, u: int)
    ensures !Timers(multiset{}).Outstanding(u) && !Slot(None).Outstanding(u)
    ensures alarms.Set(t).Outstanding(u) <==> u == t || (alarms.Timers? && alarms.Outstanding(u))
    ensures alarms.Outstanding(t) ==> (alarms.Fired(t).Set(t) == alarms && !Slot(Some(t)).Fired(t).Outstanding(u))
    ensures alarms.AfterRestart().Outstanding(u) <==> alarms.Slot? && alarms.Outstanding(u)
  {
    if alarms.Timers? && t in alarms.pending {
      assert alarms.pending - multiset{t} + multiset{t} == alarms.pending;
    }
  }

  /** The scheduling part of the actor instance. */
  class Scheduler {
    var e: seq<Event>
    var alarms: Alarms
    var nextId: nat

    constructor (e: seq<Event>, alarms: Alarms, nextId: nat)
      ensures this.e == e && this.alarms == alarms && this.nextId == nextId
    {
      this.e := e;
      this.alarms := alarms;
      this.nextId := nextId;
    }

    /** The last part of `start`, after which the head of the queue is covered by an alarm. */
    method SetFirstAlarm()
      modifies this`alarms
      ensures e != [] ==> alarms.Outstanding(e[0].t)
      ensures alarms.Timers? == old(alarms).Timers?
      ensures alarms.Timers? ==> forall t :: old(alarms).Outstanding(t) ==> alarms.Outstanding(t)
      ensures alarms == if e == [] then old(alarms) else old(alarms).Set(e[0].t)
    {
      if |e| > 0 {
        alarms := alarms.Set(e[0].t);
      }
    }

    method ScheduleEvent(timestamp: int, action: string, args: seq<string>)
      modifies this
      ensures nextId == old(nextId) + 1
      ensures (e, alarms) == Scheduled(old(e), old(alarms), Event(old(nextId), timestamp, action, args))
      ensures multiset(e) == multiset(old(e)) + multiset{Event(old(nextId), timestamp, action, args)}
      ensures old(Ordered(e) && forall k | 0 <= k < |e| :: e[k].id < nextId) ==> Ordered(e)
      ensures alarms == if old(e) == [] || timestamp < old(e)[0].t then old(alarms).Set(timestamp) else old(alarms)
    {
      ScheduledEffect(e, alarms, Event(nextId, timestamp, action, args));
      var newEvent := Event(nextId, timestamp, action, args);
      nextId := nextId + 1;
      var insertIndex := FindLater(e, newEvent.t);
      if insertIndex == -1 {
        e := e + [newEvent];
      } else {
        e := e[..insertIndex] + [newEvent] + e[insertIndex..];
      }
      if insertIndex == 0 || |e| == 1 {
        alarms := alarms.Set(newEvent.t);
      }
    }

    /** On an ordered queue an alarm runs the head, if it is due, and nothing else. */
    method OnAlarm(now: int) returns (scheduleEvents: seq<Event>)
      modifies this`e, this`alarms
      ensures (scheduleEvents, e, alarms) == Alarmed(old(e), old(alarms), now)
      ensures old(Ordered(e)) ==>
                scheduleEvents == if old(e) != [] && old(e)[0].t <= now then [old(e)[0]] else []
      ensures old(e) == scheduleEvents + e
      ensures alarms == if scheduleEvents != [] && e != [] then old(alarms).Set(e[0].t) else old(alarms)
    {
      AlarmRunsOne(e, alarms, now);
      AlarmSplits(e, alarms, now);
      var runIndex := FindDue(e, now);
      if runIndex == -1 {
        return [];
      }
      scheduleEvents := e[..runIndex + 1];
      e := e[runIndex + 1..];
      if |e| > 0 {
        alarms := alarms.Set(e[0].t);
      }
    }
  }

  /** `findIndex` on an ordered queue finds the head or nothing, so `runIndex + 1` never exceeds one. */
  lemma DueIsHead(q: seq<Event>, now: int)
    requires Ordered(q)
    ensures RunCount(q, now) == if q != [] && q[0].t <= now then 1 else 0
  {
    assert forall i | 0 < i < |q| :: Before(q[0], q[i]);
  }

  lemma AlarmRunsHead(q: seq<Event>, alarms: Alarms, now: int)
    requires Ordered(q)
    ensures q != [] && q[0].t <= now ==>
              Alarmed(q, alarms, now) == ([q[0]], q[1..], if |q| == 1 then alarms else alarms.Set(q[1].t))
    ensures q == [] || now < q[0].t ==> Alarmed(q, alarms, now) == ([], q, alarms)
  {
    DueIsHead(q, now);
    assert q[..0] == [] && q[0..] == q;
    assert q != [] ==> q[..1] == [q[0]];
  }

  lemma AlarmRunsOne(q: seq<Event>, alarms: Alarms, now: int)
    ensures Ordered(q) ==>
              Alarmed(q, alarms, now).0 == if q != [] && q[0].t <= now then [q[0]] else []
  {
    if Ordered(q) {
      AlarmRunsHead(q, alarms, now);
    }
  }

  /** What an alarm runs is a front part of the queue, and the next alarm is for what then is the head. */
  lemma AlarmSplits(q: seq<Event>, alarms: Alarms, now: int)
    ensures var (run, rest, alarms') := Alarmed(q, alarms, now);
            q == run + rest && alarms' == if run != [] && rest != [] then alarms.Set(rest[0].t) else alarms
  {
  }

  lemma OrderedTail(q: seq<Event>)
    requires q != [] && Ordered(q)
    ensures Ordered(q[1..]) && forall k | 0 <= k < |q| - 1 :: Before(q[0], q[1..][k])
  {
    forall i, j | 0 <= i < j < |q[1..]| ensures Before(q[1..][i], q[1..][j]) {
      assert Before(q[i + 1], q[j + 1]);
    }
    forall k | 0 <= k < |q| - 1 ensures Before(q[0], q[1..][k]) {
      assert Before(q[0], q[k + 1]);
    }
  }

  /** Where the events of the queue are after an insertion. */
  lemma InsertAt(q: seq<Event>, e: Event, i: nat)
    requires i == if FindLater(q, e.t) == -1 then |q| else FindLater(q, e.t)
    ensures |Insert(q, e)| == |q| + 1
    ensures Insert(q, e) == q[..i] + [e] + q[i..]
    ensures forall k | 0 <= k <= |q| ::
              Insert(q, e)[k] == if k < i then q[k] else if k == i then e else q[k - 1]
  {
  }

  lemma InsertKeepsEvents(q: seq<Event>, e: Event)
    ensures multiset(Insert(q, e)) == multiset(q) + multiset{e}
  {
    var i := if FindLater(q, e.t) == -1 then |q| else FindLater(q, e.t);
    InsertAt(q, e, i);
    assert q == q[..i] + q[i..];
  }

  lemma InsertKeepsOrder(q: seq<Event>, e: Event)
    requires Ordered(q) && forall k | 0 <= k < |q| :: q[k].id < e.id
    ensures Ordered(Insert(q, e))
  {
    var i := if FindLater(q, e.t) == -1 then |q| else FindLater(q, e.t);
    InsertAt(q, e, i);
    var r := Insert(q, e);
    forall j, k | 0 <= j < k < |r| ensures Before(r[j], r[k]) {
      if j == i {
        assert k - 1 == i || Before(q[i], q[k - 1]);
      } else if k == i {
        assert q[j].t <= e.t;
      } else {
        assert Before(q[if j < i then j else j - 1], q[if k < i then k else k - 1]);
      }
    }
  }

  lemma ScheduledEffect(q: seq<Event>, alarms: Alarms, e: Event)
    ensures Scheduled(q, alarms, e).0 == Insert(q, e) && multiset(Insert(q, e)) == multiset(q) + multiset{e}
    ensures Ordered(q) && (forall k | 0 <= k < |q| :: q[k].id < e.id) ==> Ordered(Insert(q, e))
    ensures Scheduled(q, alarms, e).1 == if q == [] || e.t < q[0].t then alarms.Set(e.t) else alarms
  {
    InsertKeepsEvents(q, e);
    if Ordered(q) && forall k | 0 <= k < |q| :: q[k].id < e.id {
      InsertKeepsOrder(q, e);
    }
  }

  /** There is only one ordered arrangement of given events. */
  lemma {:induction false} OrderedIsUnique(p: seq<Event>, q: seq<Event>)
    requires Ordered(p) && Ordered(q) && multiset(p) == multiset(q)
    ensures p == q
  {
    if p == [] || q == [] {
      assert |p| == |multiset(p)| == |multiset(q)| == |q|;
    } else {
      SameHead(p, q);
      assert p == [p[0]] + p[1..] && q == [q[0]] + q[1..];
      OrderedTail(p);
      OrderedTail(q);
      assert multiset(p[1..]) == multiset(p) - multiset{p[0]};
      assert multiset(q[1..]) == multiset(q) - multiset{q[0]};
      OrderedIsUnique(p[1..], q[1..]);
    }
  }

  lemma SameHead(p: seq<Event>, q: seq<Event>)
    requires p != [] && q != [] && Ordered(p) && Ordered(q) && multiset(p) == multiset(q)
    ensures p[0] == q[0]
  {
    assert p[0] in multiset(q) && q[0] in multiset(p);
    HeadIsLeast(q, p[0]);
    HeadIsLeast(p, q[0]);
  }

  lemma HeadIsLeast(q: seq<Event>, event: Event)
    requires Ordered(q) && event in q
    ensures event == q[0] || Before(q[0], event)
  {
    var i :| 0 <= i < |q| && q[i] == event;
    assert forall k | 0 < k < |q| :: Before(q[0], q[k]);
  }

  // ---------- Runs of the scheduler against a clock, a driver and its storage ----------

  /** An executed event, with the instant it ran and how many events had been scheduled by then. */
  datatype Execution = Execution(event: Event, at: int, known: nat)

  /**
   `executed` and `scheduled` record the current incarnation: what its alarms ran, and what it was
   restored with or has scheduled since. `saved` is the queue in storage. The other three survive restarts: how many
   there were, which events have ever run, and which have run since the last save.
   */
  datatype World = World(now: int, e: seq<Event>, alarms: Alarms, nextId: nat, ready: bool,
                         saved: seq<Event>, executed: seq<Execution>, scheduled: multiset<Event>,
                         restarts: nat, everRan: multiset<Event>, ranSinceSave: multiset<Event>)

  datatype Step =
    | Tick(elapsed: nat)
    | ScheduleEvent(timestamp: int, action: string, args: seq<string>)
    | FireAlarm(t: int)
    | SaveQueue
    | Restart
    | FinishStart

  function Initial(alarms: Alarms): World {
    World(0, [], alarms, 0, false, [], [], multiset{}, 0, multiset{}, multiset{})
  }

  /** Alarms fire at or after the instant they were set for, and reach only an actor that has started. */
  predicate Enabled(w: World, step: Step) {
    match step
    case FireAlarm(t) => w.ready && w.alarms.Outstanding(t) && t <= w.now
    case FinishStart => !w.ready
    case _ => true
  }

  function Executions(q: seq<Event>, at: int, known: nat): (r: seq<Execution>)
    ensures |r| == |q| && forall k | 0 <= k < |q| :: r[k] == Execution(q[k], at, known)
  {
    seq(|q|, k requires 0 <= k < |q| => Execution(q[k], at, known))
  }

  function Next(w: World, step: Step): World {
    match step
    case Tick(elapsed) => w.(now := w.now + elapsed)
    case ScheduleEvent(timestamp, action, args) =>
      var event := Event(w.nextId, timestamp, action, args);
      var (e, alarms) := Scheduled(w.e, w.alarms, event);
      w.(e := e, alarms := alarms, nextId := w.nextId + 1, scheduled := w.scheduled + multiset{event})
    case FireAlarm(t) =>
      var (run, rest, alarms) := Alarmed(w.e, w.alarms.Fired(t), w.now);
      w.(e := rest, alarms := alarms, executed := w.executed + Executions(run, w.now, w.nextId),
         everRan := w.everRan + multiset(run), ranSinceSave := w.ranSinceSave + multiset(run))
    case SaveQueue => w.(saved := w.e, ranSinceSave := multiset{})
    case Restart =>
      w.(e := w.saved, alarms := w.alarms.AfterRestart(), ready := false,
         executed := [], scheduled := multiset(w.saved), restarts := w.restarts + 1)
    case FinishStart =>
      w.(ready := true, alarms := if w.e == [] then w.alarms else w.alarms.Set(w.e[0].t))
  }

  ghost predicate Reachable(alarms: Alarms, w: World, steps: seq<Step>)
    decreases |steps|
  {
    if steps == [] then w == Initial(alarms)
    else
      var last := steps[|steps| - 1];
      exists v :: Reachable(alarms, v, steps[..|steps| - 1]) && Enabled(v, last) && w == Next(v, last)
  }

  /** The queue and its stored snapshot are ordered, and their events carry issued identifiers. */
  predicate QueueInv(w: World) {
    && Ordered(w.e) && (forall k | 0 <= k < |w.e| :: w.e[k].id < w.nextId)
    && Ordered(w.saved) && (forall k | 0 <= k < |w.saved| :: w.saved[k].id < w.nextId)
  }

  /** Alarm coverage: after `start`, an alarm is outstanding for the head of a non-empty queue. */
  predicate Covered(w: World) {
    w.ready && w.e != [] ==> w.alarms.Outstanding(w.e[0].t)
  }

  ghost function EventsOf(x: seq<Execution>): (q: seq<Event>)
    ensures |q| == |x|
  {
    if x == [] then [] else EventsOf(x[..|x| - 1]) + [x[|x| - 1].event]
  }

  /** What was scheduled is either pending or was run, each event exactly once. */
  ghost predicate Conserved(w: World) {
    w.scheduled == multiset(w.e) + multiset(EventsOf(w.executed))
  }

  /** The execution overtook no event of the queue that had been scheduled when it ran. */
  ghost predicate OvertookNone(x: Execution, q: seq<Event>) {
    forall k | 0 <= k < |q| && q[k].id < x.known :: Before(x.event, q[k])
  }

  /** No event runs before its time, and none overtakes an event that had been scheduled when it ran. */
  ghost predicate RunInOrder(w: World) {
    && (forall i | 0 <= i < |w.executed| :: w.executed[i].event.t <= w.executed[i].at)
    && (forall i, j | 0 <= i < j < |w.executed| && w.executed[j].event.id < w.executed[i].known ::
          Before(w.executed[i].event, w.executed[j].event))
    && (forall i | 0 <= i < |w.executed| :: OvertookNone(w.executed[i], w.e))
    && (forall i | 0 <= i < |w.executed| :: w.executed[i].known <= w.nextId)
  }

  /** Whatever happens, restarts included: an event of the stored queue is pending or has run since that save. */
  predicate NothingLost(w: World) {
    multiset(w.saved) <= multiset(w.e) + w.ranSinceSave
  }

  /** An event runs once for its scheduling, and once more at most for every restart. */
  ghost predicate RepeatedByRestartsOnly(w: World) {
    && (forall event :: w.everRan[event] + multiset(w.e)[event] <= w.restarts + 1)
    && (forall event | event in w.everRan :: event.id < w.nextId)
  }

  ghost predicate Inv(w: World) {
    QueueInv(w) && Covered(w) && Conserved(w) && RunInOrder(w) && NothingLost(w) && RepeatedByRestartsOnly(w)
  }

  lemma InsertKeepsIds(q: seq<Event>, e: Event)
    requires forall k | 0 <= k < |q| :: q[k].id < e.id
    ensures forall k | 0 <= k < |Insert(q, e)| :: Insert(q, e)[k].id <= e.id
  {
    InsertAt(q, e, if FindLater(q, e.t) == -1 then |q| else FindLater(q, e.t));
  }

  /** Scheduling sets the alarm whenever it changes the head of the queue. */
  lemma ScheduledCovers(q: seq<Event>, alarms: Alarms, event: Event)
    requires q != [] ==> alarms.Outstanding(q[0].t)
    ensures Insert(q, event) != [] && Scheduled(q, alarms, event).1.Outstanding(Insert(q, event)[0].t)
  {
    InsertAt(q, event, if FindLater(q, event.t) == -1 then |q| else FindLater(q, event.t));
  }

  lemma ScheduleKeepsQueue(w: World, timestamp: int, action: string, args: seq<string>)
    requires QueueInv(w) && Covered(w)
    ensures QueueInv(Next(w, ScheduleEvent(timestamp, action, args)))
    ensures Covered(Next(w, ScheduleEvent(timestamp, action, args)))
  {
    var event := Event(w.nextId, timestamp, action, args);
    InsertKeepsOrder(w.e, event);
    InsertKeepsIds(w.e, event);
    if w.ready {
      ScheduledCovers(w.e, w.alarms, event);
    }
  }

  /** What an alarm does to a world whose queue is ordered. */
  lemma FireAlarmRunsHead(w: World, t: int)
    requires QueueInv(w)
    ensures w.e != [] && w.e[0].t <= w.now ==>
              && Next(w, FireAlarm(t)).e == w.e[1..]
              && Next(w, FireAlarm(t)).executed == w.executed + [Execution(w.e[0], w.now, w.nextId)]
              && Next(w, FireAlarm(t)).everRan == w.everRan + multiset{w.e[0]}
              && Next(w, FireAlarm(t)).ranSinceSave == w.ranSinceSave + multiset{w.e[0]}
              && Next(w, FireAlarm(t)).alarms ==
                   (if |w.e| == 1 then w.alarms.Fired(t) else w.alarms.Fired(t).Set(w.e[1].t))
    ensures w.e == [] || w.now < w.e[0].t ==> Next(w, FireAlarm(t)) == w.(alarms := w.alarms.Fired(t))
  {
    AlarmRunsHead(w.e, w.alarms.Fired(t), w.now);
    if w.e != [] {
      assert Executions([w.e[0]], w.now, w.nextId) == [Execution(w.e[0], w.now, w.nextId)];
    }
    assert w.executed + Executions([], w.now, w.nextId) == w.executed;
    assert w.everRan + multiset([]) == w.everRan && w.ranSinceSave + multiset([]) == w.ranSinceSave;
  }

  lemma NextKeepsQueue(w: World, step: Step)
    requires QueueInv(w) && Covered(w) && Enabled(w, step)
    ensures QueueInv(Next(w, step)) && Covered(Next(w, step))
  {
    match step {
      case ScheduleEvent(timestamp, action, args) =>
        ScheduleKeepsQueue(w, timestamp, action, args);
      case FireAlarm(t) =>
        FireAlarmRunsHead(w, t);
        if w.e != [] {
          OrderedTail(w.e);
        }
      case _ =>
    }
  }

  lemma FireConserves(w: World, t: int)
    requires QueueInv(w) && Conserved(w)
    ensures Conserved(Next(w, FireAlarm(t)))
  {
    FireAlarmRunsHead(w, t);
    if w.e != [] && w.e[0].t <= w.now {
      HeadMoves(w.e, w.executed, Execution(w.e[0], w.now, w.nextId));
    }
  }

  lemma HeadMoves(q: seq<Event>, x: seq<Execution>, last: Execution)
    requires q != [] && last.event == q[0]
    ensures multiset(q) + multiset(EventsOf(x)) == multiset(q[1..]) + multiset(EventsOf(x + [last]))
  {
    OneExecution(x, last);
    assert q == [q[0]] + q[1..];
  }

  lemma ScheduleConserves(w: World, timestamp: int, action: string, args: seq<string>)
    requires Conserved(w)
    ensures Conserved(Next(w, ScheduleEvent(timestamp, action, args)))
  {
    InsertKeepsEvents(w.e, Event(w.nextId, timestamp, action, args));
  }

  lemma NextConserves(w: World, step: Step)
    requires QueueInv(w) && Conserved(w) && Enabled(w, step)
    ensures Conserved(Next(w, step))
  {
    match step {
      case ScheduleEvent(timestamp, action, args) => ScheduleConserves(w, timestamp, action, args);
      case FireAlarm(t) => FireConserves(w, t);
      case Restart => assert EventsOf([]) == [];
      case Tick(_) =>
      case SaveQueue =>
      case FinishStart =>
    }
  }

  lemma OneExecution(x: seq<Execution>, last: Execution)
    ensures EventsOf(x + [last]) == EventsOf(x) + [last.event]
  {
    var y := x + [last];
    assert y[..|y| - 1] == x;
  }

  lemma InsertOvertakesNone(x: Execution, q: seq<Event>, e: Event)
    requires OvertookNone(x, q) && x.known <= e.id
    ensures OvertookNone(x, Insert(q, e))
  {
    InsertAt(q, e, if FindLater(q, e.t) == -1 then |q| else FindLater(q, e.t));
  }

  lemma ScheduleKeepsRunOrder(w: World, timestamp: int, action: string, args: seq<string>)
    requires RunInOrder(w)
    ensures RunInOrder(Next(w, ScheduleEvent(timestamp, action, args)))
  {
    var event := Event(w.nextId, timestamp, action, args);
    forall i | 0 <= i < |w.executed| ensures OvertookNone(w.executed[i], Insert(w.e, event)) {
      InsertOvertakesNone(w.executed[i], w.e, event);
    }
  }

  lemma FireKeepsRunOrder(w: World, t: int)
    requires QueueInv(w) && RunInOrder(w)
    ensures RunInOrder(Next(w, FireAlarm(t)))
  {
    FireAlarmRunsHead(w, t);
    if w.e != [] && w.e[0].t <= w.now {
      OrderedTail(w.e);
    }
  }

  lemma NextKeepsRunOrder(w: World, step: Step)
    requires QueueInv(w) && RunInOrder(w) && Enabled(w, step)
    ensures RunInOrder(Next(w, step))
  {
    match step {
      case ScheduleEvent(timestamp, action, args) => ScheduleKeepsRunOrder(w, timestamp, action, args);
      case FireAlarm(t) => FireKeepsRunOrder(w, t);
      case _ =>
    }
  }

  lemma HeadSplits(q: seq<Event>)
    requires q != []
    ensures multiset(q) == multiset(q[1..]) + multiset{q[0]}
  {
    assert q == [q[0]] + q[1..];
  }

  lemma NextLosesNothing(w: World, step: Step)
    requires QueueInv(w) && NothingLost(w)
    ensures NothingLost(Next(w, step))
  {
    match step {
      case ScheduleEvent(timestamp, action, args) =>
        InsertKeepsEvents(w.e, Event(w.nextId, timestamp, action, args));
      case FireAlarm(t) =>
        FireAlarmRunsHead(w, t);
        if w.e != [] {
          HeadSplits(w.e);
        }
      case Tick(_) =>
      case SaveQueue =>
      case Restart =>
      case FinishStart =>
    }
  }

  /** The events of an ordered queue are distinct. */
  lemma OrderedOnce(q: seq<Event>, event: Event)
    requires Ordered(q)
    ensures multiset(q)[event] <= 1
    decreases |q|
  {
    if q != [] {
      HeadSplits(q);
      OrderedTail(q);
      OrderedOnce(q[1..], event);
      if event == q[0] {
        assert event !in q[1..];
      }
    }
  }

  lemma ScheduleRepeatsNone(w: World, timestamp: int, action: string, args: seq<string>)
    requires QueueInv(w) && RepeatedByRestartsOnly(w)
    ensures RepeatedByRestartsOnly(Next(w, ScheduleEvent(timestamp, action, args)))
  {
    var added := Event(w.nextId, timestamp, action, args);
    var v := Next(w, ScheduleEvent(timestamp, action, args));
    InsertKeepsEvents(w.e, added);
    assert added !in w.everRan && added !in w.e;
    forall event ensures v.everRan[event] + multiset(v.e)[event] <= v.restarts + 1 {
      assert event != added ==> multiset(v.e)[event] == multiset(w.e)[event];
    }
  }

  lemma FireRepeatsNone(w: World, t: int)
    requires QueueInv(w) && RepeatedByRestartsOnly(w)
    ensures RepeatedByRestartsOnly(Next(w, FireAlarm(t)))
  {
    FireAlarmRunsHead(w, t);
    if w.e != [] {
      HeadSplits(w.e);
    }
  }

  lemma RestartRepeatsOnce(w: World)
    requires QueueInv(w) && RepeatedByRestartsOnly(w)
    ensures RepeatedByRestartsOnly(Next(w, Restart))
  {
    forall event ensures w.everRan[event] + multiset(w.saved)[event] <= w.restarts + 2 {
      OrderedOnce(w.saved, event);
    }
  }

  lemma NextRepeats(w: World, step: Step)
    requires QueueInv(w) && RepeatedByRestartsOnly(w)
    ensures RepeatedByRestartsOnly(Next(w, step))
  {
    match step {
      case ScheduleEvent(timestamp, action, args) => ScheduleRepeatsNone(w, timestamp, action, args);
      case FireAlarm(t) => FireRepeatsNone(w, t);
      case Restart => RestartRepeatsOnce(w);
      case Tick(_) =>
      case SaveQueue =>
      case FinishStart =>
    }
  }

  lemma NextKeepsInv(w: World, step: Step)
    requires Inv(w) && Enabled(w, step)
    ensures Inv(Next(w, step))
  {
    NextKeepsQueue(w, step);
    NextConserves(w, step);
    NextKeepsRunOrder(w, step);
    NextLosesNothing(w, step);
    NextRepeats(w, step);
  }

  /** All these properties hold in every reachable state, with either kind of driver and any number of restarts. */
  lemma {:induction false} ReachableInv(alarms: Alarms, w: World, steps: seq<Step>)
    requires Reachable(alarms, w, steps)
    ensures Inv(w)
    decreases |steps|
  {
    if steps != [] {
      var last := steps[|steps| - 1];
      var v :| Reachable(alarms, v, steps[..|steps| - 1]) && Enabled(v, last) && w == Next(v, last);
      ReachableInv(alarms, v, steps[..|steps| - 1]);
      NextKeepsInv(v, last);
    }
  }

  lemma SameArrangement(p: seq<Event>, q: seq<Event>, ran: multiset<Event>)
    requires Ordered(p) && Ordered(q) && multiset(p) + ran == multiset(q) + ran
    ensures p == q
  {
    assert multiset(p) == (multiset(p) + ran) - ran;
    OrderedIsUnique(p, q);
  }

  lemma RestartUnnoticed(w: World)
    requires QueueInv(w) && Conserved(w)
    ensures Next(w, Restart).e == w.saved
    ensures w.scheduled == multiset(w.saved) + multiset(EventsOf(w.executed)) <==> w.saved == w.e
  {
    var ran := multiset(EventsOf(w.executed));
    if w.scheduled == multiset(w.saved) + ran {
      SameArrangement(w.saved, w.e, ran);
    }
  }

  /**
   Exactly when a restart goes unnoticed: everything that was scheduled in this incarnation is pending after the
   restart or was run before it, each event once, if and only if the queue has not changed since the last save.
   */
  lemma RestartUnnoticedExactly(alarms: Alarms, w: World, steps: seq<Step>)
    requires Reachable(alarms, w, steps)
    ensures w.scheduled == multiset(Next(w, Restart).e) + multiset(EventsOf(w.executed)) <==> w.saved == w.e
  {
    ReachableInv(alarms, w, steps);
    RestartUnnoticed(w);
  }

  /** A restart loses the timers of the process and keeps a slot of the platform, and the start covers the head again. */
  lemma RestartAlarms(w: World, t: int)
    ensures Next(w, Restart).alarms.Outstanding(t) <==> w.alarms.Slot? && w.alarms.Outstanding(t)
    ensures var v := Next(Next(w, Restart), FinishStart);
            v.ready && v.e == w.saved && (v.e != [] ==> v.alarms.Outstanding(v.e[0].t))
  {
    AlarmMeaning(w.alarms, t, t);
    if w.saved != [] {
      AlarmMeaning(w.alarms.AfterRestart(), w.saved[0].t, w.saved[0].t);
    }
  }

  lemma ReachNext(alarms: Alarms, w: World, steps: seq<Step>, step: Step) returns (v: World, steps': seq<Step>)
    requires Reachable(alarms, w, steps) && Enabled(w, step)
    ensures v == Next(w, step) && Reachable(alarms, v, steps')
  {
    v, steps' := Next(w, step), steps + [step];
    assert steps'[..|steps'| - 1] == steps && steps'[|steps'| - 1] == step;
    assert Reachable(alarms, w, steps'[..|steps'| - 1]) && Enabled(w, step) && v == Next(w, step);
  }

  lemma SavedEventPending(alarms: Alarms, event: Event) returns (w: World, steps: seq<Step>)
    requires event == Event(0, 0, "a", [])
    ensures Reachable(alarms, w, steps)
    ensures w.e == [event] && w.saved == [event] && w.now == 0 && !w.ready && w.everRan == multiset{}
  {
    w, steps := ReachNext(alarms, Initial(alarms), [], ScheduleEvent(0, "a", []));
    InsertAt([], event, 0);
    w, steps := ReachNext(alarms, w, steps, SaveQueue);
  }

  /** The start sets the alarm of a pending event, and the alarm runs it. */
  lemma StartRunsEvent(alarms: Alarms, v: World, before: seq<Step>, event: Event) returns (w: World, steps: seq<Step>)
    requires Reachable(alarms, v, before) && v.e == [event] && event.t <= v.now && !v.ready
    ensures Reachable(alarms, w, steps) && w.now == v.now && w.saved == v.saved
    ensures w.everRan == v.everRan + multiset{event}
  {
    w, steps := ReachNext(alarms, v, before, FinishStart);
    ReachableInv(alarms, w, steps);
    FireAlarmRunsHead(w, event.t);
    w, steps := ReachNext(alarms, w, steps, FireAlarm(event.t));
  }

  /** An event that has run is run again, if the process restarts before the next save. */
  lemma RestartRepeatsEvent(alarms: Alarms) returns (w: World, steps: seq<Step>)
    ensures Reachable(alarms, w, steps)
    ensures w.everRan[Event(0, 0, "a", [])] == 2
  {
    var event := Event(0, 0, "a", []);
    w, steps := SavedEventPending(alarms, event);
    w, steps := StartRunsEvent(alarms, w, steps, event);
    w, steps := ReachNext(alarms, w, steps, Restart);
    w, steps := StartRunsEvent(alarms, w, steps, event);
  }

  /** Without a restart an event runs at most once; with restarts, once more at most for each. */
  lemma RunsBounded(alarms: Alarms, w: World, steps: seq<Step>, event: Event)
    requires Reachable(alarms, w, steps)
    ensures w.everRan[event] <= w.restarts + 1
  {
    ReachableInv(alarms, w, steps);
  }

  /** At least once: an event of the last saved queue is pending or has run since, whatever restarts came between. */
  lemma SavedEventsRun(alarms: Alarms, w: World, steps: seq<Step>, event: Event)
    requires Reachable(alarms, w, steps) && event in w.saved
    ensures event in w.e || event in w.ranSinceSave
  {
    ReachableInv(alarms, w, steps);
    assert event in multiset(w.saved);
  }

  /** No due event is stranded: the alarm for the head can fire, and it runs exactly the head. */
  lemma DueHeadRuns(w: World)
    requires Inv(w) && w.ready && w.e != [] && w.e[0].t <= w.now
    ensures Enabled(w, FireAlarm(w.e[0].t))
    ensures Next(w, FireAlarm(w.e[0].t)).e == w.e[1..]
    ensures Next(w, FireAlarm(w.e[0].t)).executed == w.executed + [Execution(w.e[0], w.now, w.nextId)]
  {
    FireAlarmRunsHead(w, w.e[0].t);
  }

  /** The alarms that the coverage provides, fired one after the other until the queue is empty. */
  function Drain(w: World): World
    decreases |w.e|
  {
    if w.e == [] then w
    else
      var v := Next(w, FireAlarm(w.e[0].t));
      if |v.e| < |w.e| then Drain(v) else v
  }

  lemma ExecutionsHead(done: seq<Execution>, q: seq<Event>, at: int, known: nat)
    requires q != []
    ensures done + Executions(q, at, known) ==
            (done + [Execution(q[0], at, known)]) + Executions(q[1..], at, known)
  {
    assert Executions(q, at, known) == [Execution(q[0], at, known)] + Executions(q[1..], at, known);
  }

  predicate AllDue(q: seq<Event>, now: int) {
    forall k | 0 <= k < |q| :: q[k].t <= now
  }

  lemma TailDue(q: seq<Event>, now: int)
    requires q != [] && AllDue(q, now)
    ensures AllDue(q[1..], now)
  {
  }

  lemma DrainUnfolds(w: World) returns (v: World)
    requires w.e != [] && Next(w, FireAlarm(w.e[0].t)).e == w.e[1..]
    ensures v == Next(w, FireAlarm(w.e[0].t)) && Drain(w) == Drain(v)
    ensures v.ready == w.ready && v.now == w.now && v.nextId == w.nextId
  {
    v := Next(w, FireAlarm(w.e[0].t));
  }

  /** One step of the drain. */
  lemma DrainStep(w: World) returns (v: World)
    requires Inv(w) && w.ready && w.e != [] && AllDue(w.e, w.now)
    ensures Drain(w) == Drain(v)
    ensures Inv(v) && v.ready && v.now == w.now && v.nextId == w.nextId && v.e == w.e[1..]
    ensures v.executed == w.executed + [Execution(w.e[0], w.now, w.nextId)]
  {
    DueHeadRuns(w);
    NextKeepsInv(w, FireAlarm(w.e[0].t));
    v := DrainUnfolds(w);
  }

  /** Once everything is due, the alarms drain the queue in (time, insertion) order. */
  lemma {:induction false} DrainRunsInOrder(w: World)
    requires Inv(w) && w.ready && AllDue(w.e, w.now)
    ensures Drain(w).e == []
    ensures Drain(w).executed == w.executed + Executions(w.e, w.now, w.nextId)
    decreases |w.e|
  {
    if w.e == [] {
      assert w.executed + Executions([], w.now, w.nextId) == w.executed;
    } else {
      var v := DrainStep(w);
      TailDue(w.e, w.now);
      DrainRunsInOrder(v);
      ExecutionsHead(w.executed, w.e, w.now, w.nextId);
    }
  }
}
