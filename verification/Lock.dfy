/**
 The asynchronous lock. A call either runs at once or queues; a release clears the flag and resolves the
 first queued promise, but the woken caller sets the flag again only when its continuation runs. In between,
 a newcomer finds the lock free and barges in.
 */
module Locks {
  type Caller = nat

  /**
   `woken` are the callers whose promise is resolved but whose continuation has not run, `active` those
   inside the callback. `queued` and `wokenLog` record all callers that ever queued and that were woken.
   */
  datatype LockState = LockState(locked: bool, waiting: seq<Caller>, woken: set<Caller>, active: set<Caller>,
                                 calls: nat, queued: seq<Caller>, wokenLog: seq<Caller>)

  const INITIAL := LockState(false, [], {}, {}, 0, [], [])

  /** Callers are numbered in the order of their calls. */
  datatype Step = Call | Resume(caller: Caller) | Finish(caller: Caller)

  predicate Enabled(s: LockState, step: Step) {
    match step
    case Call => true
    case Resume(c) => c in s.woken
    case Finish(c) => c in s.active
  }

  function OnCall(s: LockState): LockState {
    if s.locked then s.(waiting := s.waiting + [s.calls], queued := s.queued + [s.calls], calls := s.calls + 1)
    else s.(locked := true, active := s.active + {s.calls}, calls := s.calls + 1)
  }

  function OnResume(s: LockState, c: Caller): LockState {
    s.(locked := true, woken := s.woken - {c}, active := s.active + {c})
  }

  function OnFinish(s: LockState, c: Caller): LockState {
    var r := s.(locked := false, active := s.active - {c});
    if s.waiting == [] then r
    else r.(waiting := s.waiting[1..], woken := s.woken + {s.waiting[0]}, wokenLog := s.wokenLog + [s.waiting[0]])
  }

  function Next(s: LockState, step: Step): LockState {
    match step
    case Call => OnCall(s)
    case Resume(c) => OnResume(s, c)
    case Finish(c) => OnFinish(s, c)
  }

  ghost predicate IsRun(states: seq<LockState>, steps: seq<Step>) {
    && |states| == |steps| + 1
    && states[0] == INITIAL
    && forall i | 0 <= i < |steps| :: Enabled(states[i], steps[i]) && states[i + 1] == Next(states[i], steps[i])
  }

  /** A non-empty waiting list has an active holder or a wakeup in flight that will serve it. */
  predicate NoLostWakeup(s: LockState) {
    s.waiting != [] ==> s.active != {} || s.woken != {}
  }

  ghost predicate Increasing(q: seq<Caller>) {
    forall i, j | 0 <= i < j < |q| :: q[i] < q[j]
  }

  /** Waiters are woken in the order of their calls, each of them once. */
  ghost predicate WokenInOrder(s: LockState) {
    && s.queued == s.wokenLog + s.waiting
    && Increasing(s.queued)
    && (forall c | c in s.queued || c in s.active || c in s.woken :: c < s.calls)
    && (forall c | c in s.woken :: c in s.wokenLog && c !in s.active)
    && (forall c | c in s.waiting :: c !in s.woken && c !in s.active)
  }

  ghost predicate Inv(s: LockState) {
    NoLostWakeup(s) && WokenInOrder(s) && (s.locked ==> s.active != {})
  }

  lemma NextKeepsInv(s: LockState, step: Step)
    requires Inv(s) && Enabled(s, step)
    ensures Inv(Next(s, step))
  {
    match step {
      case Call =>
        assert s.calls in OnCall(s).active || s.locked;
        assert forall k | 0 <= k < |s.queued| :: s.queued[k] in s.queued;
      case Resume(c) =>
        assert c in OnResume(s, c).active;
        if c in s.waiting {
          assert false;
        }
      case Finish(c) =>
        if s.waiting != [] {
          var r := OnFinish(s, c);
          var first := s.waiting[0];
          assert first in r.woken;
          assert s.waiting == [first] + s.waiting[1..];
          assert s.queued == r.wokenLog + r.waiting;
          assert first == r.queued[|s.wokenLog|];
          forall x | x in r.waiting ensures x != first {
            var k :| 0 <= k < |r.waiting| && r.waiting[k] == x;
            assert s.queued[|s.wokenLog| + 1 + k] == x;
          }
        }
    }
  }

  /** Both guarantees survive every interleaving, barging included. */
  lemma {:induction false} RunInv(states: seq<LockState>, steps: seq<Step>, i: nat)
    requires IsRun(states, steps) && i < |states|
    ensures Inv(states[i])
  {
    if i > 0 {
      RunInv(states, steps, i - 1);
      NextKeepsInv(states[i - 1], steps[i - 1]);
    }
  }

  // ---------- Every waiter is served ----------

  function Work(s: LockState): nat {
    3 * |s.waiting| + 2 * |s.woken| + |s.active|
  }

  /**
   As long as somebody waits, a callback can finish or a woken caller can resume; and
   without new calls each such step brings the end nearer, whichever is taken.
   */
  lemma WaitersAreServed(s: LockState)
    requires Inv(s)
    ensures s.waiting != [] ==> exists step: Step :: !step.Call? && Enabled(s, step)
    ensures forall step: Step | !step.Call? && Enabled(s, step) :: Work(Next(s, step)) < Work(s)
  {
    if s.waiting != [] {
      if s.active != {} {
        var c :| c in s.active;
        assert Enabled(s, Finish(c));
      } else {
        var c :| c in s.woken;
        assert Enabled(s, Resume(c));
      }
    }
  }

  // ---------- Mutual exclusion ----------

  ghost predicate Exclusive(states: seq<LockState>) {
    forall i | 0 <= i < |states| :: |states[i].active| <= 1
  }

  /** At most one callback runs, and while it runs the flag is set. */
  predicate Guarded(s: LockState) {
    |s.active| <= 1 && (s.active != {} ==> s.locked)
  }

  lemma NextKeepsGuarded(s: LockState, step: Step)
    requires Inv(s) && Enabled(s, step) && Guarded(s) && (step.Resume? ==> !s.locked)
    ensures Guarded(Next(s, step))
  {
    if step.Finish? {
      SingletonOf(s.active, step.caller);
    }
  }

  lemma SingletonOf(callers: set<Caller>, c: Caller)
    requires c in callers && |callers| <= 1
    ensures callers == {c}
  {
    assert |callers - {c}| == |callers| - 1;
    assert callers - {c} == {};
  }

  lemma {:induction false} UnlockedResumesGuard(states: seq<LockState>, steps: seq<Step>, i: nat)
    requires IsRun(states, steps) && i < |states|
    requires forall k | 0 <= k < i && steps[k].Resume? :: !states[k].locked
    ensures Guarded(states[i])
  {
    if i > 0 {
      RunInv(states, steps, i - 1);
      UnlockedResumesGuard(states, steps, i - 1);
      NextKeepsGuarded(states[i - 1], steps[i - 1]);
    }
  }

  /** How many callers a step moves into and out of the callback, and onto and off the way in. */
  lemma CallersMove(s: LockState, step: Step)
    requires Inv(s) && Enabled(s, step)
    ensures |Next(s, step).active| == |s.active| +
              (match step
               case Call => if s.locked then 0 else 1
               case Resume(_) => 1
               case Finish(_) => -1)
    ensures |Next(s, step).woken| == |s.woken| +
              (match step
               case Call => 0
               case Resume(_) => -1
               case Finish(_) => if s.waiting == [] then 0 else 1)
  {
    match step {
      case Call => assert s.calls !in s.active;
      case Resume(c) => assert c !in s.active;
      case Finish(c) => if s.waiting != [] { assert s.waiting[0] !in s.woken; }
    }
  }

  lemma ExclusiveResumesAlone(states: seq<LockState>, steps: seq<Step>, i: nat)
    requires IsRun(states, steps) && Exclusive(states) && i < |steps| && steps[i].Resume?
    ensures states[i].active == {}
  {
    RunInv(states, steps, i);
    CallersMove(states[i], steps[i]);
    assert |states[i + 1].active| <= 1;
  }

  /**
   At most one callback runs at any time of a run if and only if no woken caller of the run resumes while a
   callback is running, which is the same as: no woken caller of the run finds the flag set when it resumes.
   */
  lemma ExclusionIffNoOverlap(states: seq<LockState>, steps: seq<Step>)
    requires IsRun(states, steps)
    ensures Exclusive(states) <==> forall i | 0 <= i < |steps| && steps[i].Resume? :: states[i].active == {}
    ensures Exclusive(states) <==> forall i | 0 <= i < |steps| && steps[i].Resume? :: !states[i].locked
  {
    if Exclusive(states) {
      forall i | 0 <= i < |steps| && steps[i].Resume? ensures states[i].active == {} {
        ExclusiveResumesAlone(states, steps, i);
      }
    }
    forall i | 0 <= i < |steps| && states[i].active == {} ensures !states[i].locked {
      RunInv(states, steps, i);
    }
    if forall i | 0 <= i < |steps| && steps[i].Resume? :: !states[i].locked {
      forall i | 0 <= i < |states| ensures |states[i].active| <= 1 {
        UnlockedResumesGuard(states, steps, i);
      }
    }
  }

  /** A call that finds the flag clear although a woken caller has yet to resume. */
  predicate Barges(s: LockState, step: Step) {
    step.Call? && !s.locked && s.woken != {}
  }

  /** Without a call that barges in, nobody is on the way in while a callback runs. */
  predicate OneInside(s: LockState) {
    Guarded(s) && |s.woken| <= 1 && (s.woken != {} ==> s.active == {} && !s.locked)
  }

  lemma NoBargeKeepsOneInside(s: LockState, step: Step)
    requires Inv(s) && Enabled(s, step) && OneInside(s) && !Barges(s, step)
    ensures OneInside(Next(s, step))
  {
    match step {
      case Call =>
      case Resume(c) => SingletonOf(s.woken, c);
      case Finish(c) => SingletonOf(s.active, c);
    }
  }

  /** Barging is necessary for two callbacks to run at once. */
  lemma {:induction false} NoBargeExcludes(states: seq<LockState>, steps: seq<Step>, i: nat)
    requires IsRun(states, steps) && i < |states|
    requires forall k | 0 <= k < i :: !Barges(states[k], steps[k])
    ensures OneInside(states[i]) && |states[i].active| <= 1
  {
    if i > 0 {
      RunInv(states, steps, i - 1);
      NoBargeExcludes(states, steps, i - 1);
      NoBargeKeepsOneInside(states[i - 1], steps[i - 1]);
    }
  }

  /** It is not sufficient: a newcomer that finishes before the woken caller resumes does no harm. */
  lemma BargingMayBeHarmless() returns (states: seq<LockState>, steps: seq<Step>)
    ensures IsRun(states, steps) && Exclusive(states)
    ensures exists i :: 0 <= i < |steps| && Barges(states[i], steps[i])
  {
    steps := [Call, Call, Finish(0), Call, Finish(2), Resume(1)];
    var s1 := Next(INITIAL, steps[0]);
    var s2 := Next(s1, steps[1]);
    var s3 := Next(s2, steps[2]);
    var s4 := Next(s3, steps[3]);
    var s5 := Next(s4, steps[4]);
    var s6 := Next(s5, steps[5]);
    states := [INITIAL, s1, s2, s3, s4, s5, s6];
    assert s1.active == {0} && s2.active == {0} && s2.waiting == [1];
    assert s3.active == {} && s3.woken == {1} && s3.waiting == [];
    assert s4.active == {2} && s5.active == {} && s5.woken == {1} && s6.active == {1};
    assert Barges(states[3], steps[3]);
  }

  /** Two callbacks run at once when a call arrives between a release and the resumption of the woken caller. */
  lemma BargingBreaksExclusion() returns (states: seq<LockState>, steps: seq<Step>)
    ensures IsRun(states, steps)
    ensures states[|steps|].active == {1, 2}
  {
    steps := [Call, Call, Finish(0), Call, Resume(1)];
    var s1 := Next(INITIAL, steps[0]);
    var s2 := Next(s1, steps[1]);
    var s3 := Next(s2, steps[2]);
    var s4 := Next(s3, steps[3]);
    var s5 := Next(s4, steps[4]);
    states := [INITIAL, s1, s2, s3, s4, s5];
    assert s1.active == {0} && s2.waiting == [1];
    assert s3.active == {} && s3.woken == {1} && s3.waiting == [];
    assert s4.active == {2} && s5.active == {1, 2};
  }

  // ---------- The object ----------

  /** The lock's fields, with one method for each part of `lock` between two suspensions. */
  class Lock {
    var locked: bool
    var waiting: seq<Caller>
    ghost var woken: set<Caller>
    ghost var active: set<Caller>
    var calls: nat
    ghost var queued: seq<Caller>
    ghost var wokenLog: seq<Caller>

    ghost function State(): LockState
      reads this
    {
      LockState(locked, waiting, woken, active, calls, queued, wokenLog)
    }

    constructor ()
      ensures State() == INITIAL
    {
      locked, waiting, calls := false, [], 0;
      woken, active, queued, wokenLog := {}, {}, [], [];
    }

    /** `lock` up to its first suspension; `runs` says whether the callback starts at once. */
    method Enter() returns (caller: Caller, runs: bool)
      modifies this
      ensures State() == OnCall(old(State())) && caller == old(calls)
      ensures runs <==> !old(locked)
      ensures locked && woken == old(woken)
      ensures runs ==> active == old(active) + {caller} && waiting == old(waiting)
      ensures !runs ==> active == old(active) && waiting == old(waiting) + [caller]
      ensures old(Inv(State())) ==> Inv(State()) && (runs <==> caller !in waiting)
    {
      ghost var s := State();
      caller := calls;
      calls := calls + 1;
      runs := !locked;
      if locked {
        waiting := waiting + [caller];
        queued := queued + [caller];
      } else {
        locked := true;
        active := active + {caller};
      }
      if Inv(s) {
        NextKeepsInv(s, Call);
      }
    }

    method Continue(caller: Caller)
      requires caller in woken
      modifies this
      ensures State() == OnResume(old(State()), caller)
      ensures locked && active == old(active) + {caller} && woken == old(woken) - {caller} && waiting == old(waiting)
      ensures old(Inv(State())) ==> Inv(State())
    {
      if Inv(State()) {
        NextKeepsInv(State(), Resume(caller));
      }
      locked := true;
      woken := woken - {caller};
      active := active + {caller};
    }

    /** The `finally` block. */
    method Release(caller: Caller)
      requires caller in active
      modifies this
      ensures State() == OnFinish(old(State()), caller)
      ensures !locked && active == old(active) - {caller}
      ensures old(waiting) == [] ==> waiting == [] && woken == old(woken)
      ensures old(waiting) != [] ==> waiting == old(waiting)[1..] && woken == old(woken) + {old(waiting)[0]}
      ensures old(Inv(State())) ==> Inv(State())
    {
      if Inv(State()) {
        NextKeepsInv(State(), Finish(caller));
      }
      locked := false;
      active := active - {caller};
      if |waiting| > 0 {
        var next := waiting[0];
        waiting := waiting[1..];
        woken := woken + {next};
        wokenLog := wokenLog + [next];
      }
    }
  }
}
