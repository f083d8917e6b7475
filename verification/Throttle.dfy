/**
 The throttled function: the first call runs at once, calls during the delay only leave their arguments
 behind, and the timer that ends the delay runs with the arguments left last.
 */
module Throttles {
  import opened Wrappers

  datatype Invocation = Invocation(at: int, args: string)

  /** `timer` is the instant the pending timeout was set for; `calls` and `runs` record the history. */
  datatype Throttle = Throttle(lastRan: bool, lastArgs: Option<string>, timer: Option<int>,
                               calls: seq<Invocation>, runs: seq<Invocation>)

  const INITIAL := Throttle(false, None, None, [], [])

  function OnCall(s: Throttle, delay: nat, now: int, args: string): Throttle {
    var r := s.(calls := s.calls + [Invocation(now, args)]);
    if !s.lastRan then r.(lastRan := true, timer := Some(now + delay), runs := s.runs + [Invocation(now, args)])
    else r.(lastArgs := Some(args))
  }

  function OnTimer(s: Throttle, delay: nat, now: int): Throttle {
    match s.lastArgs
    case None => s.(lastRan := false, timer := None)
    case Some(args) => s.(lastArgs := None, timer := Some(now + delay), runs := s.runs + [Invocation(now, args)])
  }

  /** `lateness` bounds how late a timeout fires. */
  datatype Config = Config(delay: nat, lateness: nat)

  datatype World = World(now: int, throttle: Throttle)

  datatype Step = Tick(elapsed: nat) | Call(args: string) | FireTimer

  predicate Enabled(cfg: Config, w: World, step: Step) {
    match step
    case Tick(elapsed) => w.throttle.timer.Some? ==> w.now + elapsed <= w.throttle.timer.value + cfg.lateness
    case Call(_) => true
    case FireTimer => w.throttle.timer.Some? && w.throttle.timer.value <= w.now
  }

  function Next(cfg: Config, w: World, step: Step): World {
    match step
    case Tick(elapsed) => w.(now := w.now + elapsed)
    case Call(args) => w.(throttle := OnCall(w.throttle, cfg.delay, w.now, args))
    case FireTimer => w.(throttle := OnTimer(w.throttle, cfg.delay, w.now))
  }

  ghost predicate IsRun(cfg: Config, states: seq<World>, steps: seq<Step>) {
    && |states| == |steps| + 1
    && states[0].throttle == INITIAL
    && forall i | 0 <= i < |steps| ::
         Enabled(cfg, states[i], steps[i]) && states[i + 1] == Next(cfg, states[i], steps[i])
  }

  /** Two runs of the function are at least one delay apart. */
  ghost predicate Spaced(cfg: Config, runs: seq<Invocation>) {
    forall i, j | 0 <= i < j < |runs| :: runs[i].at + cfg.delay <= runs[j].at
  }

  /** The latest call has been run, or its arguments wait for the timer that ends the current delay. */
  predicate LatestCallServed(s: Throttle) {
    s.calls != [] ==>
      && s.runs != []
      && if s.lastArgs.Some? then s.lastArgs == Some(s.calls[|s.calls| - 1].args)
         else s.runs[|s.runs| - 1].args == s.calls[|s.calls| - 1].args
  }

  ghost predicate Inv(cfg: Config, w: World) {
    var s := w.throttle;
    && Spaced(cfg, s.runs)
    && LatestCallServed(s)
    && (s.calls == [] ==> s.runs == [])
    && (s.lastRan <==> s.timer.Some?)
    && (s.lastArgs.Some? ==> s.lastRan)
    && (s.timer.Some? ==> s.runs != [] && s.timer.value == s.runs[|s.runs| - 1].at + cfg.delay
                          && w.now <= s.timer.value + cfg.lateness)
    && (s.timer.None? ==> forall i | 0 <= i < |s.runs| :: s.runs[i].at + cfg.delay <= w.now)
    && (forall i | 0 <= i < |s.runs| :: s.runs[i].at <= w.now)
    && (s.calls != [] ==> s.calls[|s.calls| - 1].at <= w.now)
    && (s.lastArgs.Some? ==> s.runs[|s.runs| - 1].at <= s.calls[|s.calls| - 1].at)
  }

  lemma NextKeepsInv(cfg: Config, w: World, step: Step)
    requires Inv(cfg, w) && Enabled(cfg, w, step)
    ensures Inv(cfg, Next(cfg, w, step))
  {
  }

  lemma {:induction false} RunInv(cfg: Config, states: seq<World>, steps: seq<Step>, i: nat)
    requires IsRun(cfg, states, steps) && i < |states|
    ensures Inv(cfg, states[i])
  {
    if i > 0 {
      RunInv(cfg, states, steps, i - 1);
      NextKeepsInv(cfg, states[i - 1], steps[i - 1]);
    }
  }

  /** In every run the function runs at most once per delay and never loses the latest call. */
  lemma SpacedAndServed(cfg: Config, states: seq<World>, steps: seq<Step>, i: nat)
    requires IsRun(cfg, states, steps) && i < |states|
    ensures Spaced(cfg, states[i].throttle.runs) && LatestCallServed(states[i].throttle)
  {
    RunInv(cfg, states, steps, i);
  }

  /** The arguments of the latest call are run at most one delay after the call, plus the lateness of the timer. */
  lemma LatestCallInTime(cfg: Config, states: seq<World>, steps: seq<Step>, i: nat)
    requires IsRun(cfg, states, steps) && i < |states|
    requires var calls := states[i].throttle.calls;
             calls != [] && calls[|calls| - 1].at + cfg.delay + cfg.lateness < states[i].now
    ensures var s := states[i].throttle;
            s.lastArgs.None? && s.runs != [] && s.runs[|s.runs| - 1].args == s.calls[|s.calls| - 1].args
  {
    RunInv(cfg, states, steps, i);
  }

  /** A call runs at once if no delay is running; otherwise it runs, if it stays the latest, when the delay ends. */
  lemma CallIsServed(cfg: Config, states: seq<World>, steps: seq<Step>, i: nat, args: string, elapsed: nat)
    requires IsRun(cfg, states, steps) && i < |states|
    ensures var v := Next(cfg, states[i], Call(args));
            var runs := states[i].throttle.runs;
            if states[i].throttle.timer.None? then v.throttle.runs == runs + [Invocation(states[i].now, args)]
            else
              v.throttle.runs == runs &&
              (Enabled(cfg, v, Tick(elapsed)) && Enabled(cfg, Next(cfg, v, Tick(elapsed)), FireTimer) ==>
                 Next(cfg, Next(cfg, v, Tick(elapsed)), FireTimer).throttle.runs ==
                   runs + [Invocation(states[i].now + elapsed, args)])
  {
    RunInv(cfg, states, steps, i);
  }

  /** The closure's captured variables. */
  class ThrottledFunction {
    const delay: nat
    var lastRan: bool
    var lastArgs: Option<string>
    var timer: Option<int>
    ghost var calls: seq<Invocation>
    ghost var runs: seq<Invocation>

    ghost function State(): Throttle
      reads this
    {
      Throttle(lastRan, lastArgs, timer, calls, runs)
    }

    constructor (delay: nat)
      ensures State() == INITIAL && this.delay == delay
    {
      this.delay := delay;
      lastRan, lastArgs, timer, calls, runs := false, None, None, [], [];
    }

    /** The returned function; `run` is the argument the wrapped function is applied to, if it is. */
    method Apply(args: string, now: int) returns (run: Option<string>)
      modifies this
      ensures State() == OnCall(old(State()), delay, now, args)
      ensures runs == old(runs) + if run.Some? then [Invocation(now, run.value)] else []
      ensures !old(lastRan) ==> run == Some(args) && lastRan && timer == Some(now + delay) && lastArgs == old(lastArgs)
      ensures old(lastRan) ==> run == None && lastRan && timer == old(timer) && lastArgs == Some(args)
    {
      run := None;
      calls := calls + [Invocation(now, args)];
      if !lastRan {
        run := Some(args);
        runs := runs + [Invocation(now, args)];
        lastRan := true;
        timer := Some(now + delay);
      } else {
        lastArgs := Some(args);
      }
    }

    method TimeoutFired(now: int) returns (run: Option<string>)
      modifies this
      ensures old(lastRan) ==> State() == OnTimer(old(State()), delay, now)
      ensures runs == old(runs) + if run.Some? then [Invocation(now, run.value)] else []
      ensures run == old(lastArgs) && lastArgs.None?
      ensures lastRan == run.Some? && timer == if run.Some? then Some(now + delay) else None
    {
      lastRan := false;
      timer := None;
      run := lastArgs;
      if lastArgs.Some? {
        runs := runs + [Invocation(now, lastArgs.value)];
        lastRan := true;
        lastArgs := None;
        timer := Some(now + delay);
      }
    }
  }
}
