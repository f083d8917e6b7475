/**
 The rate limiter example: a counter that is reset by the first call after the window of one
 minute. Times are milliseconds of a clock that never goes back.
 */
module RateLimiting {
  const LIMIT := 5
  const WINDOW := 60000

  datatype Limiter = Limiter(count: nat, resetAt: int)

  const INITIAL := Limiter(0, 0)

  /** The action's effect on its state, and whether it allows the call. */
  function CheckLimit(s: Limiter, now: int): (Limiter, bool) {
    var r := if now > s.resetAt then Limiter(0, now + WINDOW) else s;
    if r.count < LIMIT then (r.(count := r.count + 1), true) else (r, false)
  }

  function After(times: seq<int>): Limiter {
    if times == [] then INITIAL else CheckLimit(After(times[..|times| - 1]), times[|times| - 1]).0
  }

  /** Whether the last of these calls is allowed. */
  predicate LastAllowed(times: seq<int>)
    requires times != []
  {
    CheckLimit(After(times[..|times| - 1]), times[|times| - 1]).1
  }

  /** How many of the calls made in the interval from `from` to `to` are allowed. */
  function AllowedIn(times: seq<int>, from: int, to: int): nat {
    if times == [] then 0
    else
      var counts := from <= times[|times| - 1] <= to && LastAllowed(times);
      AllowedIn(times[..|times| - 1], from, to) + (if counts then 1 else 0)
  }

  function AllowedFrom(times: seq<int>, from: int): nat {
    if times == [] then 0
    else
      var counts := from <= times[|times| - 1] && LastAllowed(times);
      AllowedFrom(times[..|times| - 1], from) + (if counts then 1 else 0)
  }

  ghost predicate Monotone(times: seq<int>) {
    (forall i, j | 0 <= i <= j < |times| :: times[i] <= times[j]) && (times != [] ==> 0 <= times[0])
  }

  lemma {:induction false} LaterHasFewer(times: seq<int>, from: int, from': int)
    requires from <= from'
    ensures AllowedFrom(times, from') <= AllowedFrom(times, from)
    ensures (forall k | 0 <= k < |times| :: times[k] < from') ==> AllowedFrom(times, from') == 0
  {
    if times != [] {
      LaterHasFewer(times[..|times| - 1], from, from');
    }
  }

  /** How many calls the window before the current one may contribute. */
  function Carry(times: seq<int>): nat {
    if times != [] && times[0] == 0 then LIMIT else LIMIT - 1
  }

  /**
   The current window starts at `resetAt - WINDOW`. The counter counts its allowed calls, of which the
   resetting call is the first, and the minute before it adds no more than the carry.
   */
  ghost predicate WindowInv(times: seq<int>) {
    var s := After(times);
    var start := s.resetAt - WINDOW;
    && s.count <= LIMIT
    && (times != [] ==> start <= times[|times| - 1] <= s.resetAt)
    && AllowedFrom(times, start) == s.count
    && (times != [] && times[0] != 0 ==> AllowedFrom(times, start + 1) < s.count)
    && AllowedFrom(times, start - WINDOW) <= s.count + Carry(times)
  }

  /** The call that resets the counter leaves at most the old window's calls in the minute before it. */
  lemma ResetKeepsWindow(times: seq<int>)
    requires times != [] && Monotone(times) && WindowInv(times[..|times| - 1])
    requires After(times[..|times| - 1]).resetAt < times[|times| - 1]
    ensures WindowInv(times)
  {
    var front, now := times[..|times| - 1], times[|times| - 1];
    var start := After(front).resetAt - WINDOW;
    LaterHasFewer(front, now - WINDOW, now);
    LaterHasFewer(front, now, now + 1);
    LaterHasFewer(front, start, now - WINDOW);
    LaterHasFewer(front, start + 1, now - WINDOW);
    if front != [] {
      assert front[|front| - 1] <= After(front).resetAt;
    }
  }

  lemma {:induction false} WindowInvHolds(times: seq<int>)
    requires Monotone(times)
    ensures WindowInv(times)
  {
    if times != [] {
      WindowInvHolds(times[..|times| - 1]);
      if After(times[..|times| - 1]).resetAt < times[|times| - 1] {
        ResetKeepsWindow(times);
      }
    }
  }

  /** The counter never exceeds the limit. */
  lemma CountBounded(times: seq<int>)
    requires Monotone(times)
    ensures After(times).count <= 5
  {
    WindowInvHolds(times);
  }

  /**
   Any interval of one minute contains at most 9 allowed calls, whatever the calls were, and at most 10
   if the clock showed 0 at the first of them.
   */
  lemma {:induction false} IntervalBound(times: seq<int>, from: int)
    requires Monotone(times)
    ensures AllowedIn(times, from, from + 60000) <= if times != [] && times[0] == 0 then 10 else 9
  {
    if times != [] {
      var front, now := times[..|times| - 1], times[|times| - 1];
      if now > from + WINDOW {
        IntervalBound(front, from);
      } else {
        WindowInvHolds(times);
        AllUpTo(times, from, from + WINDOW);
        LaterHasFewer(times, After(times).resetAt - WINDOW - WINDOW, from);
      }
    }
  }

  lemma {:induction false} AllUpTo(times: seq<int>, from: int, to: int)
    requires forall k | 0 <= k < |times| :: times[k] <= to
    ensures AllowedIn(times, from, to) == AllowedFrom(times, from)
  {
    if times != [] {
      AllUpTo(times[..|times| - 1], from, to);
    }
  }

  /** The bound is met, so the limiter does not keep every minute to its five requests. */
  lemma NineInOneMinute() returns (times: seq<int>)
    ensures Monotone(times) && times != [] && times[0] > 0
    ensures AllowedIn(times, 2, 2 + 60000) == 9
  {
    var t1 := [1];
    var t2 := t1 + [60001];
    var t3 := t2 + [60001];
    var t4 := t3 + [60001];
    var t5 := t4 + [60001];
    var t6 := t5 + [60002];
    var t7 := t6 + [60002];
    var t8 := t7 + [60002];
    var t9 := t8 + [60002];
    times := t9 + [60002];
    assert t1[..0] == [] && t2[..1] == t1 && t3[..2] == t2 && t4[..3] == t3 && t5[..4] == t4;
    assert t6[..5] == t5 && t7[..6] == t6 && t8[..7] == t7 && t9[..8] == t8 && times[..9] == t9;
    assert After(t1) == Limiter(1, 60001) && AllowedIn(t1, 2, 60002) == 0;
    assert After(t2) == Limiter(2, 60001) && AllowedIn(t2, 2, 60002) == 1;
    assert After(t3) == Limiter(3, 60001) && AllowedIn(t3, 2, 60002) == 2;
    assert After(t4) == Limiter(4, 60001) && AllowedIn(t4, 2, 60002) == 3;
    assert After(t5) == Limiter(5, 60001) && AllowedIn(t5, 2, 60002) == 4;
    assert After(t6) == Limiter(1, 120002) && AllowedIn(t6, 2, 60002) == 5;
    assert After(t7) == Limiter(2, 120002) && AllowedIn(t7, 2, 60002) == 6;
    assert After(t8) == Limiter(3, 120002) && AllowedIn(t8, 2, 60002) == 7;
    assert After(t9) == Limiter(4, 120002) && AllowedIn(t9, 2, 60002) == 8;
  }

  // ---------- When a minute keeps to five requests ----------

  ghost predicate AllFrom(calls: seq<int>, from: int) {
    forall k | 0 <= k < |calls| :: from <= calls[k]
  }

  /** Whatever calls follow `times` from instant `from` on, the minute from then on allows no more than the limit. */
  ghost predicate MinuteKeepsLimit(times: seq<int>, from: int) {
    forall calls | Monotone(times + calls) && AllFrom(calls, from) ::
      AllowedIn(times + calls, from, from + 60000) <= 5
  }

  /** The window that is open ends within the minute, and its counter has room. */
  predicate RoomBeforeReset(s: Limiter, from: int) {
    s.count < LIMIT && from <= s.resetAt < from + WINDOW
  }

  lemma {:induction false} NothingBefore(times: seq<int>, from: int, to: int)
    requires forall k | 0 <= k < |times| :: times[k] < from
    ensures AllowedIn(times, from, to) == 0
  {
    if times != [] {
      NothingBefore(times[..|times| - 1], from, to);
    }
  }

  /**
   While the minute lasts: nothing has been allowed in it and the state is the one before it, or
   the open window outlasts the minute and its counter bounds what has been allowed.
   */
  predicate MinuteInv(before: Limiter, s: Limiter, allowed: nat, from: int) {
    (s == before && allowed == 0) || (from + WINDOW <= s.resetAt && allowed <= s.count)
  }

  lemma MinuteStep(before: Limiter, s: Limiter, allowed: nat, from: int, now: int)
    requires !RoomBeforeReset(before, from) && before.count <= LIMIT && s.count <= LIMIT
    requires MinuteInv(before, s, allowed, from) && from <= now <= from + WINDOW
    ensures var (s', ok) := CheckLimit(s, now);
            s'.count <= LIMIT && MinuteInv(before, s', allowed + (if ok then 1 else 0), from)
  {
  }

  /** What one more call at the end does to the state and to the allowed calls of an interval. */
  lemma OneCall(times: seq<int>, now: int, from: int, to: int)
    ensures After(times + [now]) == CheckLimit(After(times), now).0
    ensures AllowedIn(times + [now], from, to) ==
              AllowedIn(times, from, to) + (if from <= now <= to && CheckLimit(After(times), now).1 then 1 else 0)
  {
    assert (times + [now])[..|times|] == times;
  }

  lemma MonotoneFront(times: seq<int>, now: int)
    requires Monotone(times + [now])
    ensures Monotone(times) && 0 <= now && (times != [] ==> times[|times| - 1] <= now)
  {
    var all := times + [now];
    assert all[|times|] == now && all[0] <= all[|times|];
    assert forall k | 0 <= k < |times| :: all[k] == times[k] && all[k] <= all[|times|];
  }

  /** Calls that a call at `now` may follow. */
  ghost predicate MayCall(times: seq<int>, now: int) {
    Monotone(times) && 0 <= now && (times != [] ==> times[|times| - 1] <= now)
  }

  lemma MonotoneCall(times: seq<int>, now: int)
    requires MayCall(times, now)
    ensures MayCall(times + [now], now)
  {
  }

  /** The invariant of the minute after the calls made so far, if the last of them lies in it. */
  ghost predicate MinuteSoFar(times: seq<int>, all: seq<int>, from: int) {
    && AllowedIn(all, from, from + WINDOW) <= LIMIT && After(all).count <= LIMIT
    && (all == times || (all != [] && all[|all| - 1] <= from + WINDOW) ==>
          MinuteInv(After(times), After(all), AllowedIn(all, from, from + WINDOW), from))
  }

  lemma MinuteStart(times: seq<int>, from: int)
    requires After(times).count <= LIMIT && forall k | 0 <= k < |times| :: times[k] < from
    ensures MinuteSoFar(times, times, from)
  {
    NothingBefore(times, from, from + WINDOW);
  }

  lemma MinuteCall(times: seq<int>, front: seq<int>, now: int, from: int)
    requires !RoomBeforeReset(After(times), from) && After(times).count <= LIMIT && from <= now
    requires front == times || (front != [] && front[|front| - 1] <= now)
    requires MinuteSoFar(times, front, from) && front + [now] != times
    ensures MinuteSoFar(times, front + [now], from)
  {
    OneCall(front, now, from, from + WINDOW);
    if now <= from + WINDOW {
      MinuteStep(After(times), After(front), AllowedIn(front, from, from + WINDOW), from, now);
    }
  }

  lemma {:induction false} MinuteInvHolds(times: seq<int>, calls: seq<int>, from: int)
    requires Monotone(times + calls) && AllFrom(calls, from) && forall k | 0 <= k < |times| :: times[k] < from
    requires !RoomBeforeReset(After(times), from) && After(times).count <= LIMIT
    ensures MinuteSoFar(times, times + calls, from)
    decreases |calls|
  {
    if calls == [] {
      assert times + calls == times;
      MinuteStart(times, from);
    } else {
      var n := |calls| - 1;
      var front := times + calls[..n];
      assert times + calls == front + [calls[n]];
      MonotoneFront(front, calls[n]);
      MinuteInvHolds(times, calls[..n], from);
      assert n == 0 ==> front == times;
      MinuteCall(times, front, calls[n], from);
    }
  }

  lemma InsertAssociates(times: seq<int>, now: int, rest: seq<int>)
    ensures times + ([now] + rest) == (times + [now]) + rest
  {
  }

  /** A call that is allowed, from state `s` to state `s'`. */
  lemma CallAllowed(times: seq<int>, s: Limiter, s': Limiter, now: int, from: int) returns (later: seq<int>)
    requires MayCall(times, now) && from <= now <= from + WINDOW
    requires s == After(times) && CheckLimit(s, now) == (s', true)
    ensures later == times + [now] && MayCall(later, now) && After(later) == s'
    ensures AllowedIn(later, from, from + WINDOW) == AllowedIn(times, from, from + WINDOW) + 1
  {
    later := times + [now];
    MonotoneCall(times, now);
    OneCall(times, now, from, from + WINDOW);
  }

  /** `n` calls at one instant inside the open window, all of them allowed. */
  lemma {:induction false} CallsAllowed(times: seq<int>, s: Limiter, n: nat, now: int, from: int)
    returns (calls: seq<int>, later: seq<int>)
    requires MayCall(times, now) && from <= now <= from + WINDOW
    requires s == After(times) && now <= s.resetAt && s.count + n <= LIMIT
    ensures later == times + calls && MayCall(later, now) && AllFrom(calls, now)
    ensures After(later) == s.(count := s.count + n)
    ensures AllowedIn(later, from, from + WINDOW) == AllowedIn(times, from, from + WINDOW) + n
    decreases n
  {
    if n == 0 {
      calls, later := [], times;
    } else {
      var s' := s.(count := s.count + 1);
      var next := CallAllowed(times, s, s', now, from);
      var rest;
      rest, later := CallsAllowed(next, s', n - 1, now, from);
      assert s'.(count := s'.count + (n - 1)) == s.(count := s.count + n);
      InsertAssociates(times, now, rest);
      calls := [now] + rest;
    }
  }

  /** The first call after the open window opens another one, in which more calls are allowed. */
  lemma NextWindow(times: seq<int>, s: Limiter, n: nat, from: int) returns (calls: seq<int>, later: seq<int>)
    requires s == After(times) && MayCall(times, s.resetAt + 1) && n < LIMIT
    requires from <= s.resetAt + 1 <= from + WINDOW
    ensures later == times + calls && MayCall(later, s.resetAt + 1) && AllFrom(calls, s.resetAt + 1)
    ensures AllowedIn(later, from, from + WINDOW) == AllowedIn(times, from, from + WINDOW) + 1 + n
  {
    var now := s.resetAt + 1;
    var s' := Limiter(1, now + WINDOW);
    var first := CallAllowed(times, s, s', now, from);
    var rest;
    rest, later := CallsAllowed(first, s', n, now, from);
    InsertAssociates(times, now, rest);
    calls := [now] + rest;
  }

  lemma AppendAssociates(times: seq<int>, a: seq<int>, b: seq<int>)
    ensures (times + a) + b == times + (a + b)
  {
  }

  /** If there is room, fill the open window at its end and start the next one a millisecond later. */
  lemma SixInOneMinute(times: seq<int>, s: Limiter, from: int) returns (calls: seq<int>, later: seq<int>)
    requires MayCall(times, s.resetAt) && s == After(times) && RoomBeforeReset(s, from)
    ensures later == times + calls && Monotone(later) && AllFrom(calls, from)
    ensures AllowedIn(later, from, from + WINDOW) == AllowedIn(times, from, from + WINDOW) + LIMIT + 1
  {
    var filling, filled := CallsAllowed(times, s, LIMIT - s.count, s.resetAt, from);
    var more;
    more, later := NextWindow(filled, s.(count := LIMIT), s.count, from);
    AppendAssociates(times, filling, more);
    calls := filling + more;
  }

  lemma RoomBreaksLimit(times: seq<int>, from: int)
    requires Monotone(times) && forall k | 0 <= k < |times| :: times[k] < from
    requires RoomBeforeReset(After(times), from)
    ensures !MinuteKeepsLimit(times, from)
  {
    WindowInvHolds(times);
    var calls, later := SixInOneMinute(times, After(times), from);
    assert AllowedIn(times + calls, from, from + WINDOW) > LIMIT;
  }

  lemma NoRoomKeepsLimit(times: seq<int>, from: int)
    requires Monotone(times) && forall k | 0 <= k < |times| :: times[k] < from
    requires !RoomBeforeReset(After(times), from)
    ensures MinuteKeepsLimit(times, from)
  {
    CountBounded(times);
    forall calls | Monotone(times + calls) && AllFrom(calls, from)
      ensures AllowedIn(times + calls, from, from + WINDOW) <= LIMIT
    {
      MinuteInvHolds(times, calls, from);
    }
  }

  /**
   Exactly when the promise of five requests per minute can be relied on: whatever calls follow, the minute that
   starts at `from` keeps to the limit if and only if the counter is at its limit, or the window that is open
   then does not end within that minute.
   */
  lemma MinuteKeepsLimitExactly(times: seq<int>, from: int)
    requires Monotone(times) && forall k | 0 <= k < |times| :: times[k] < from
    ensures MinuteKeepsLimit(times, from) <==>
              After(times).count == 5 || After(times).resetAt < from || from + 60000 <= After(times).resetAt
  {
    CountBounded(times);
    if RoomBeforeReset(After(times), from) {
      RoomBreaksLimit(times, from);
    } else {
      NoRoomKeepsLimit(times, from);
    }
  }

  /** `Math.round(ms / 1000)`, which rounds halves up. */
  function RoundToSeconds(ms: int): (s: int)
    ensures -500 < 1000 * s - ms <= 500
  {
    (ms + 500) / 1000
  }

  /** What the state and the answer are after one more call. */
  lemma OneMoreCall(times: seq<int>, now: int, s: Limiter) returns (later: seq<int>)
    requires Monotone(times) && 0 <= now && (times != [] ==> times[|times| - 1] <= now)
    requires s == CheckLimit(After(times), now).0
    ensures later == times + [now] && Monotone(later) && After(later) == s
    ensures LastAllowed(later) == CheckLimit(After(times), now).1
    ensures s.count <= LIMIT && 0 <= s.resetAt - now <= WINDOW
  {
    later := times + [now];
    assert later[..|times|] == times;
    WindowInvHolds(later);
  }

  /** The actor's state, updated by its action. */
  class RateLimiter {
    var count: nat
    var resetAt: int
    ghost var times: seq<int>

    ghost predicate Valid()
      reads this
    {
      Monotone(times) && Limiter(count, resetAt) == After(times)
    }

    constructor ()
      ensures Valid() && times == []
    {
      count, resetAt, times := 0, 0, [];
    }

    /** Counts the call and says whether it is allowed, how many more are, and the seconds left. */
    method Check(now: int) returns (allowed: bool, remaining: int, resetsIn: int)
      requires Valid() && 0 <= now && (times != [] ==> times[|times| - 1] <= now)
      modifies this
      ensures Valid() && times == old(times) + [now]
      ensures allowed == LastAllowed(times)
      ensures resetAt == if now > old(resetAt) then now + 60000 else old(resetAt)
      ensures count == (if now > old(resetAt) then 0 else old(count)) + (if allowed then 1 else 0)
      ensures allowed <==> now > old(resetAt) || old(count) < 5
      ensures remaining == 5 - count
      ensures 0 <= remaining == LIMIT - count && (allowed ==> remaining < LIMIT)
      ensures !allowed ==> remaining == 0
      ensures 0 <= resetsIn <= 60 && -500 < 1000 * resetsIn - (resetAt - now) <= 500
    {
      ghost var before := Limiter(count, resetAt);
      if now > resetAt {
        count := 0;
        resetAt := now + 60000;
      }
      allowed := count < 5;
      if allowed {
        count := count + 1;
      }
      assert (Limiter(count, resetAt), allowed) == CheckLimit(before, now);
      times := OneMoreCall(times, now, Limiter(count, resetAt));
      remaining := 5 - count;
      resetsIn := RoundToSeconds(resetAt - now);
    }
  }
}
