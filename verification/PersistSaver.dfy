/**
 Saving the actor's persisted object: the dirty flag set by the change proxy, the throttled saver with its
 timer, and the write that a lock serialises. The lock is modelled with an atomic hand-off to the
 next waiting save, and driver writes succeed.
 */
module PersistSavers {
  import opened Wrappers

  /** The persisted object, with the number of changes made to it so far. */
  datatype Snapshot = Snapshot(content: string, edits: nat)

  /**
   `writing` is the snapshot that the holder of the write lock is writing, `waiting` the number
   of saves queued at that lock, `pendingSave` the instant the save timer was set for.
   */
  datatype Saver = Saver(persist: Snapshot, persistChanged: bool, storage: Snapshot, writing: Option<Snapshot>,
                         waiting: nat, lastSaveTime: int, pendingSave: Option<int>)

  function Initial(content: string): Saver {
    Saver(Snapshot(content, 0), false, Snapshot(content, 0), None, 0, 0, None)
  }

  /** A change made through the proxy. */
  function Change(s: Saver, content: string): Saver {
    s.(persist := Snapshot(content, s.persist.edits + 1), persistChanged := true)
  }

  function SavePersistInner(s: Saver, now: int): Saver {
    var r := s.(lastSaveTime := now);
    if !s.persistChanged then r
    else if s.writing.Some? then r.(waiting := s.waiting + 1)
    else r.(persistChanged := false, writing := Some(s.persist))
  }

  function SavePersistThrottled(s: Saver, interval: int, now: int): Saver {
    var timeSinceLastSave := now - s.lastSaveTime;
    if timeSinceLastSave < interval then
      if s.pendingSave.None? then s.(pendingSave := Some(now + (interval - timeSinceLastSave))) else s
    else SavePersistInner(s, now)
  }

  function SaveTimerFired(s: Saver, now: int): Saver {
    SavePersistInner(s.(pendingSave := None), now)
  }

  /** `saveState({ immediate: true })` */
  function SaveImmediate(s: Saver, now: int): Saver {
    if s.persistChanged then SavePersistInner(s, now) else s
  }

  /** The write in progress ends and the lock goes to the next waiting save, if there is one. */
  function WriteDone(s: Saver): Saver
    requires s.writing.Some?
  {
    var r := s.(storage := s.writing.value);
    if s.waiting == 0 then r.(writing := None)
    else r.(waiting := s.waiting - 1, persistChanged := false, writing := Some(s.persist))
  }

  // ---------- Runs with a clock ----------

  /** `interval` is the configured save interval, `lateness` bounds how late a timer may fire. */
  datatype Config = Config(interval: nat, lateness: nat)

  datatype World = World(now: int, saver: Saver)

  datatype Step =
    | Tick(elapsed: nat)
    | Edit(content: string)
    | Throttle
    | FireTimer
    | Immediate
    | FinishWrite

  predicate Enabled(cfg: Config, w: World, step: Step) {
    match step
    case Tick(elapsed) =>
      w.saver.pendingSave.Some? ==> w.now + elapsed <= w.saver.pendingSave.value + cfg.lateness
    case FireTimer => w.saver.pendingSave.Some? && w.saver.pendingSave.value <= w.now
    case FinishWrite => w.saver.writing.Some?
    case _ => true
  }

  function Next(cfg: Config, w: World, step: Step): World
    requires Enabled(cfg, w, step)
  {
    match step
    case Tick(elapsed) => w.(now := w.now + elapsed)
    case Edit(content) => w.(saver := Change(w.saver, content))
    case Throttle => w.(saver := SavePersistThrottled(w.saver, cfg.interval, w.now))
    case FireTimer => w.(saver := SaveTimerFired(w.saver, w.now))
    case Immediate => w.(saver := SaveImmediate(w.saver, w.now))
    case FinishWrite => w.(saver := WriteDone(w.saver))
  }

  ghost predicate IsRun(cfg: Config, states: seq<World>, steps: seq<Step>) {
    && |states| == |steps| + 1
    && states[0].now >= 0
    && (exists content :: states[0].saver == Initial(content))
    && forall i | 0 <= i < |steps| ::
         Enabled(cfg, states[i], steps[i]) && states[i + 1] == Next(cfg, states[i], steps[i])
  }

  /** With the dirty flag clear, the current object is in storage or in the write that will put it there. */
  predicate CleanMeansSaved(s: Saver) {
    !s.persistChanged ==> (if s.writing.Some? then s.writing.value else s.storage) == s.persist
  }

  /** A pending save never lies more than one interval after the last save. */
  predicate DeadlineBounded(cfg: Config, w: World) {
    && w.saver.lastSaveTime <= w.now
    && (w.saver.pendingSave.Some? ==>
          && w.saver.pendingSave.value <= w.saver.lastSaveTime + cfg.interval
          && w.now <= w.saver.pendingSave.value + cfg.lateness)
  }

  /** Storage is never ahead of the write in progress, nor that of the object; only a busy lock has a queue. */
  predicate SnapshotsOrdered(s: Saver) {
    && s.storage.edits <= s.persist.edits
    && (s.writing.Some? ==> s.storage.edits <= s.writing.value.edits <= s.persist.edits)
    && (s.waiting > 0 ==> s.writing.Some?)
  }

  predicate Inv(cfg: Config, w: World) {
    CleanMeansSaved(w.saver) && DeadlineBounded(cfg, w) && SnapshotsOrdered(w.saver)
  }

  lemma NextKeepsInv(cfg: Config, w: World, step: Step)
    requires Inv(cfg, w) && Enabled(cfg, w, step)
    ensures Inv(cfg, Next(cfg, w, step))
    ensures w.saver.persist.edits <= Next(cfg, w, step).saver.persist.edits
    ensures w.now <= Next(cfg, w, step).now
  {
  }

  lemma {:induction false} RunInv(cfg: Config, states: seq<World>, steps: seq<Step>, i: nat)
    requires IsRun(cfg, states, steps) && i < |states|
    ensures Inv(cfg, states[i])
  {
    if i > 0 {
      RunInv(cfg, states, steps, i - 1);
      NextKeepsInv(cfg, states[i - 1], steps[i - 1]);
    }
  }

  /** With the dirty flag clear and no write in flight, storage equals the current state, in every run. */
  lemma CleanAndIdleMeansStored(cfg: Config, states: seq<World>, steps: seq<Step>, i: nat)
    requires IsRun(cfg, states, steps) && i < |states|
    requires !states[i].saver.persistChanged && states[i].saver.writing.None?
    ensures states[i].saver.storage == states[i].saver.persist
  {
    RunInv(cfg, states, steps, i);
  }

  /** The first `edits` changes are in storage, in the write in progress, or ahead of a save queued at the lock. */
  predicate Captured(s: Saver, edits: nat) {
    || edits <= s.storage.edits
    || (s.writing.Some? && edits <= s.writing.value.edits)
    || s.waiting > 0
  }

  lemma CapturedStays(cfg: Config, w: World, step: Step, edits: nat)
    requires Inv(cfg, w) && Enabled(cfg, w, step)
    requires edits <= w.saver.persist.edits && Captured(w.saver, edits)
    ensures Captured(Next(cfg, w, step).saver, edits)
  {
  }

  /** What a throttled save at instant `t` leaves behind: it captured the changes, or a timer will by `t + interval`. */
  predicate Due(cfg: Config, w: World, t: int, edits: nat) {
    || Captured(w.saver, edits)
    || (w.saver.pendingSave.Some? && w.saver.pendingSave.value <= t + cfg.interval)
  }

  lemma DueStays(cfg: Config, w: World, step: Step, t: int, edits: nat)
    requires Inv(cfg, w) && Enabled(cfg, w, step)
    requires edits <= w.saver.persist.edits && Due(cfg, w, t, edits)
    ensures Due(cfg, Next(cfg, w, step), t, edits)
  {
    if Captured(w.saver, edits) {
      CapturedStays(cfg, w, step, edits);
    }
  }

  lemma ThrottleMakesDue(cfg: Config, w: World)
    requires Inv(cfg, w)
    ensures Due(cfg, Next(cfg, w, Throttle), w.now, w.saver.persist.edits)
  {
  }

  lemma {:induction false} DueAfterThrottle(cfg: Config, states: seq<World>, steps: seq<Step>, i: nat, j: nat)
    requires IsRun(cfg, states, steps) && i < j < |states| && steps[i].Throttle?
    ensures states[i].saver.persist.edits <= states[j].saver.persist.edits
    ensures Due(cfg, states[j], states[i].now, states[i].saver.persist.edits)
  {
    RunInv(cfg, states, steps, j - 1);
    NextKeepsInv(cfg, states[j - 1], steps[j - 1]);
    if i == j - 1 {
      ThrottleMakesDue(cfg, states[i]);
    } else {
      DueAfterThrottle(cfg, states, steps, i, j - 1);
      DueStays(cfg, states[j - 1], steps[j - 1], states[i].now, states[i].saver.persist.edits);
    }
  }

  /**
   Save lag: every change present when the throttled saver ran at instant `t` has been captured in every
   state later than `t + interval` (plus the lateness of the timer), whatever else happened in between.
   */
  lemma SaveLagBound(cfg: Config, states: seq<World>, steps: seq<Step>, i: nat, j: nat)
    requires IsRun(cfg, states, steps) && i < j < |states| && steps[i].Throttle?
    requires states[i].now + cfg.interval + cfg.lateness < states[j].now
    ensures Captured(states[j].saver, states[i].saver.persist.edits)
  {
    RunInv(cfg, states, steps, j);
    DueAfterThrottle(cfg, states, steps, i, j);
  }

  // ---------- Captured changes reach storage ----------

  function FinishWrites(s: Saver): Saver
    decreases s.waiting, if s.writing.Some? then 1 else 0
  {
    if s.writing.None? then s else FinishWrites(WriteDone(s))
  }

  /** When the outstanding writes have ended, captured changes are in storage. */
  lemma {:induction false} CapturedReachesStorage(s: Saver, edits: nat)
    requires SnapshotsOrdered(s) && edits <= s.persist.edits && Captured(s, edits)
    ensures FinishWrites(s).writing.None? && edits <= FinishWrites(s).storage.edits
    decreases s.waiting, if s.writing.Some? then 1 else 0
  {
    if s.writing.Some? {
      CapturedReachesStorage(WriteDone(s), edits);
    }
  }

  /** What the object holds, according to the history: the content of the last change. */
  function ContentBy(content: string, steps: seq<Step>): string {
    if steps == [] then content
    else
      match steps[|steps| - 1]
      case Edit(c) => c
      case _ => ContentBy(content, steps[..|steps| - 1])
  }

  lemma NextFollowsEdits(cfg: Config, w: World, step: Step)
    requires Enabled(cfg, w, step)
    ensures Next(cfg, w, step).saver.persist ==
              if step.Edit? then Snapshot(step.content, w.saver.persist.edits + 1) else w.saver.persist
  {
  }

  lemma {:induction false} ContentFollowsHistory(cfg: Config, states: seq<World>, steps: seq<Step>, i: nat)
    requires IsRun(cfg, states, steps) && i < |states|
    ensures states[i].saver.persist.content == ContentBy(states[0].saver.persist.content, steps[..i])
  {
    if i > 0 {
      ContentFollowsHistory(cfg, states, steps, i - 1);
      NextFollowsEdits(cfg, states[i - 1], steps[i - 1]);
      assert steps[..i][..i - 1] == steps[..i - 1];
    }
  }

  /** End to end: with the dirty flag clear and no write in flight, storage holds what the last change wrote. */
  lemma StorageFollowsHistory(cfg: Config, states: seq<World>, steps: seq<Step>, i: nat)
    requires IsRun(cfg, states, steps) && i < |states|
    requires !states[i].saver.persistChanged && states[i].saver.writing.None?
    ensures states[i].saver.storage.content == ContentBy(states[0].saver.persist.content, steps[..i])
  {
    CleanAndIdleMeansStored(cfg, states, steps, i);
    ContentFollowsHistory(cfg, states, steps, i);
  }

  /** In every run, an immediate save followed by the end of the outstanding writes brings storage up to date. */
  lemma ImmediateSavesAll(cfg: Config, states: seq<World>, steps: seq<Step>, i: nat)
    requires IsRun(cfg, states, steps) && i < |states|
    ensures FinishWrites(Next(cfg, states[i], Immediate).saver).storage.edits == states[i].saver.persist.edits
    ensures !states[i].saver.persistChanged ==> Next(cfg, states[i], Immediate) == states[i]
  {
    RunInv(cfg, states, steps, i);
    NextKeepsInv(cfg, states[i], Immediate);
    CapturedReachesStorage(Next(cfg, states[i], Immediate).saver, states[i].saver.persist.edits);
    WritesNeverAhead(Next(cfg, states[i], Immediate).saver);
  }

  /** So does the timer that a throttled save leaves behind, when it fires. */
  lemma TimerSavesAll(cfg: Config, states: seq<World>, steps: seq<Step>, i: nat)
    requires IsRun(cfg, states, steps) && i < |states| && Enabled(cfg, states[i], FireTimer)
    ensures FinishWrites(Next(cfg, states[i], FireTimer).saver).storage.edits == states[i].saver.persist.edits
  {
    RunInv(cfg, states, steps, i);
    NextKeepsInv(cfg, states[i], FireTimer);
    CapturedReachesStorage(Next(cfg, states[i], FireTimer).saver, states[i].saver.persist.edits);
    WritesNeverAhead(Next(cfg, states[i], FireTimer).saver);
  }

  lemma {:induction false} WritesNeverAhead(s: Saver)
    requires SnapshotsOrdered(s)
    ensures FinishWrites(s).storage.edits <= s.persist.edits
    decreases s.waiting, if s.writing.Some? then 1 else 0
  {
    if s.writing.Some? {
      WritesNeverAhead(WriteDone(s));
    }
  }

  // ---------- The object ----------

  /** What beginning a save does, apart from the timer. */
  predicate SaveBegins(s: Saver, r: Saver, now: int) {
    && r.lastSaveTime == now && r.persist == s.persist && r.storage == s.storage
    && (!s.persistChanged ==> !r.persistChanged && r.writing == s.writing && r.waiting == s.waiting)
    && (s.persistChanged && s.writing.Some? ==>
          r.persistChanged && r.writing == s.writing && r.waiting == s.waiting + 1)
    && (s.persistChanged && s.writing.None? ==>
          !r.persistChanged && r.writing == Some(s.persist) && r.waiting == s.waiting)
  }

  /** The saving part of the actor instance. Times are read from the caller's clock. */
  class PersistSaver {
    const saveInterval: nat
    var persist: Snapshot
    var persistChanged: bool
    var storage: Snapshot
    var writing: Option<Snapshot>
    var waiting: nat
    var lastSaveTime: int
    var pendingSaveTimeout: Option<int>

    ghost function State(): Saver
      reads this
    {
      Saver(persist, persistChanged, storage, writing, waiting, lastSaveTime, pendingSaveTimeout)
    }

    constructor (content: string, saveInterval: nat)
      ensures State() == Initial(content) && this.saveInterval == saveInterval
    {
      this.saveInterval := saveInterval;
      persist, storage := Snapshot(content, 0), Snapshot(content, 0);
      persistChanged, writing, waiting := false, None, 0;
      lastSaveTime, pendingSaveTimeout := 0, None;
    }

    /** A change made through the proxy: it is not lost to the saver, and what was captured before stays captured. */
    method SetPersist(content: string)
      modifies this`persist, this`persistChanged
      ensures State() == Change(old(State()), content)
      ensures persist == Snapshot(content, old(persist).edits + 1) && persistChanged
      ensures CleanMeansSaved(State()) && (old(SnapshotsOrdered(State())) ==> SnapshotsOrdered(State()))
      ensures forall edits :: Captured(State(), edits) <==> old(Captured(State(), edits))
    {
      persist := Snapshot(content, persist.edits + 1);
      persistChanged := true;
    }

    /** Within the interval only a timer is set, for its end, unless one is set already; outside it the save begins. */
    method SaveThrottled(now: int)
      modifies this
      ensures now - old(lastSaveTime) < saveInterval ==>
                State() == old(State()).(pendingSave := pendingSaveTimeout) &&
                pendingSaveTimeout == if old(pendingSaveTimeout).Some? then old(pendingSaveTimeout)
                                      else Some(old(lastSaveTime) + saveInterval)
      ensures now - old(lastSaveTime) >= saveInterval ==>
                pendingSaveTimeout == old(pendingSaveTimeout) && SaveBegins(old(State()), State(), now)
      ensures State() == SavePersistThrottled(old(State()), saveInterval, now)
      ensures old(CleanMeansSaved(State()) && SnapshotsOrdered(State()) && lastSaveTime <= now) &&
              old(pendingSaveTimeout.Some? ==> pendingSaveTimeout.value <= lastSaveTime + saveInterval) ==>
                || Captured(State(), persist.edits)
                || (pendingSaveTimeout.Some? && pendingSaveTimeout.value <= now + saveInterval)
    {
      var timeSinceLastSave := now - lastSaveTime;
      if timeSinceLastSave < saveInterval {
        if pendingSaveTimeout.None? {
          pendingSaveTimeout := Some(now + (saveInterval - timeSinceLastSave));
        }
      } else {
        SaveInner(now);
      }
    }

    /** With changes, the save takes the lock and a snapshot or queues at the lock; without any, only its time is noted. */
    method SaveInner(now: int)
      modifies this
      ensures pendingSaveTimeout == old(pendingSaveTimeout) && SaveBegins(old(State()), State(), now)
      ensures State() == SavePersistInner(old(State()), now)
      ensures old(SnapshotsOrdered(State()) && CleanMeansSaved(State())) ==> Captured(State(), persist.edits)
    {
      lastSaveTime := now;
      if persistChanged {
        if writing.Some? {
          waiting := waiting + 1;
        } else {
          persistChanged := false;
          writing := Some(persist);
        }
      }
    }

    /** The timer captures every change made so far, and the next throttled save within the interval sets it again. */
    method TimerFired(now: int)
      modifies this
      ensures State() == SaveTimerFired(old(State()), now)
      ensures pendingSaveTimeout.None? && SaveBegins(old(State()), State(), now)
      ensures old(SnapshotsOrdered(State()) && CleanMeansSaved(State())) ==>
                SnapshotsOrdered(State()) && CleanMeansSaved(State()) && Captured(State(), persist.edits)
      ensures forall later | now <= later < now + saveInterval ::
                SavePersistThrottled(State(), saveInterval, later).pendingSave == Some(now + saveInterval)
    {
      pendingSaveTimeout := None;
      SaveInner(now);
    }

    /** Every change made so far is captured; without changes not even the time of the last save moves. */
    method SaveStateImmediate(now: int)
      modifies this
      ensures State() == SaveImmediate(old(State()), now)
      ensures old(SnapshotsOrdered(State()) && CleanMeansSaved(State())) ==>
                SnapshotsOrdered(State()) && CleanMeansSaved(State()) && Captured(State(), persist.edits)
      ensures !old(persistChanged) ==> State() == old(State())
      ensures old(persistChanged) ==>
                SaveBegins(old(State()), State(), now) && pendingSaveTimeout == old(pendingSaveTimeout)
    {
      if persistChanged {
        SaveInner(now);
      }
    }

    method WriteCompleted()
      requires writing.Some?
      modifies this
      ensures State() == WriteDone(old(State()))
      ensures storage == old(writing).value && persist == old(persist) && lastSaveTime == old(lastSaveTime)
      ensures old(waiting) == 0 ==> writing.None? && waiting == 0 && persistChanged == old(persistChanged)
      ensures old(waiting) > 0 ==> writing == Some(persist) && waiting == old(waiting) - 1 && !persistChanged
    {
      storage := writing.value;
      if waiting == 0 {
        writing := None;
      } else {
        waiting := waiting - 1;
        persistChanged := false;
        writing := Some(persist);
      }
    }
  }
}
