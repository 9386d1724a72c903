/** The in-memory fixed-window rate limiter, and the second copy of it that throttles inbound messages. */
module RateLimit {
  import opened Common

  datatype Window = Window(count: nat, resetAt: int)

  datatype Verdict = Allowed | Refused(retryAfterSeconds: int)

  /** The window of a key after one call at a given time. */
  function Increment(w: Option<Window>, now: int, windowMs: int): Window {
    if w.None? || now >= w.value.resetAt then Window(1, now + windowMs) else Window(w.value.count + 1, w.value.resetAt)
  }

  function CeilSeconds(ms: int): int {
    (ms + 999) / 1000
  }

  function Judge(w: Window, now: int, limit: int): Verdict {
    if w.count <= limit then Allowed
    else Refused(if CeilSeconds(w.resetAt - now) > 1 then CeilSeconds(w.resetAt - now) else 1)
  }

  /** The auth limiter: one window per key. */
  class RateLimiter {
    var windows: map<string, Window>

    constructor ()
      ensures windows == map[]
    {
      windows := map[];
    }

    function At(key: string): Option<Window>
      reads this
    {
      if key in windows then Some(windows[key]) else None
    }

    method IncrementMemory(key: string, now: int, windowMs: int) returns (count: nat, ttlMs: int)
      modifies this
      ensures windows == old(windows)[key := Increment(old(At(key)), now, windowMs)]
      ensures count == windows[key].count && ttlMs == windows[key].resetAt - now
    {
      if key !in windows || now >= windows[key].resetAt {
        windows := windows[key := Window(1, now + windowMs)];
        return 1, windowMs;
      }
      var existing := windows[key];
      windows := windows[key := existing.(count := existing.count + 1)];
      return existing.count + 1, existing.resetAt - now;
    }

    method CheckRateLimit(key: string, now: int, limit: int, windowMs: int) returns (v: Verdict)
      modifies this
      ensures windows == old(windows)[key := Increment(old(At(key)), now, windowMs)]
      ensures v == Judge(windows[key], now, limit)
    {
      var count, ttlMs := IncrementMemory(key, now, windowMs);
      if count <= limit {
        return Allowed;
      }
      return Refused(if CeilSeconds(ttlMs) > 1 then CeilSeconds(ttlMs) else 1);
    }
  }

  /** The messaging limiter: same windows, but the call that opens a window is allowed unconditionally. */
  class MessagingLimiter {
    var windows: map<string, Window>

    constructor ()
      ensures windows == map[]
    {
      windows := map[];
    }

    function At(key: string): Option<Window>
      reads this
    {
      if key in windows then Some(windows[key]) else None
    }

    method IncrementMemory(key: string, now: int, windowMs: int, max: int) returns (allowed: bool)
      modifies this
      ensures windows == old(windows)[key := Increment(old(At(key)), now, windowMs)]
      ensures allowed == MessageAllowed(old(At(key)), now, windowMs, max)
    {
      if key !in windows || now >= windows[key].resetAt {
        windows := windows[key := Window(1, now + windowMs)];
        return true;
      }
      var existing := windows[key];
      windows := windows[key := existing.(count := existing.count + 1)];
      return existing.count + 1 <= max;
    }
  }

  function MessageAllowed(w: Option<Window>, now: int, windowMs: int, max: int): bool {
    w.None? || now >= w.value.resetAt || w.value.count + 1 <= max
  }

  // ---------- A key's history of calls ----------

  /** The key's window after calls at the given times. */
  function After(times: seq<int>, windowMs: int): Option<Window> {
    if times == [] then None
    else Some(Increment(After(times[..|times| - 1], windowMs), times[|times| - 1], windowMs))
  }

  predicate LastAllowed(times: seq<int>, windowMs: int, limit: int)
    requires times != []
  {
    After(times, windowMs).value.count <= limit
  }

  predicate InOrder(times: seq<int>) {
    forall i, j :: 0 <= i < j < |times| ==> times[i] <= times[j]
  }

  /** Calls allowed at a time in the half-open interval [from, from + windowMs). */
  function AllowedIn(times: seq<int>, windowMs: int, limit: int, from: int): nat {
    if times == [] then 0
    else
      AllowedIn(times[..|times| - 1], windowMs, limit, from)
      + if LastAllowed(times, windowMs, limit) && from <= times[|times| - 1] < from + windowMs then 1 else 0
  }

  function AtMost(n: nat, limit: int): int {
    if n <= limit then n else limit
  }

  /** How many allowed calls an interval can hold so far, by where the key's current window openedAt. */
  predicate Within(times: seq<int>, windowMs: int, limit: int, from: int) {
    var n := AllowedIn(times, windowMs, limit, from);
    match After(times, windowMs)
    case None => n == 0
    case Some(w) =>
      var openedAt := w.resetAt - windowMs;
      && openedAt <= times[|times| - 1] && w.count > 0
      && (if openedAt < from then n <= AtMost(w.count, limit) - 1
          else if openedAt < from + windowMs then n <= limit - 1 + AtMost(w.count, limit)
          else n <= 2 * limit - 1)
  }

  lemma {:induction false} NoneBeforeTheInterval(times: seq<int>, windowMs: int, limit: int, from: int)
    requires forall i :: 0 <= i < |times| ==> times[i] < from
    ensures AllowedIn(times, windowMs, limit, from) == 0
    decreases |times|
  {
    if times == [] {
    } else {
      NoneBeforeTheInterval(times[..|times| - 1], windowMs, limit, from);
    }
  }

  lemma {:induction false} HistoryStaysWithin(times: seq<int>, windowMs: int, limit: int, from: int)
    requires InOrder(times) && limit >= 1 && windowMs > 0
    ensures Within(times, windowMs, limit, from)
    decreases |times|
  {
    if times == [] {
    } else {
      var last := times[|times| - 1];
      HistoryStaysWithin(times[..|times| - 1], windowMs, limit, from);
      if last < from {
        NoneBeforeTheInterval(times, windowMs, limit, from);
      }
    }
  }

  lemma {:induction false} NoneAllowed(times: seq<int>, windowMs: int, limit: int, from: int)
    requires windowMs <= 0 || limit < 1
    ensures AllowedIn(times, windowMs, limit, from) == 0
    decreases |times|
  {
    if times == [] {
    } else {
      NoneAllowed(times[..|times| - 1], windowMs, limit, from);
    }
  }

  /**
   * Whatever the call history, an interval of window length holds at most twice the limit less one allowed calls, and
   * none when the limit is below one.
   */
  lemma WindowBound(times: seq<int>, windowMs: int, limit: int, from: int)
    requires InOrder(times)
    ensures AllowedIn(times, windowMs, limit, from) <= if limit >= 1 then 2 * limit - 1 else 0
  {
    if windowMs > 0 && limit >= 1 {
      HistoryStaysWithin(times, windowMs, limit, from);
    } else {
      NoneAllowed(times, windowMs, limit, from);
    }
  }

  function Burst(t: int, n: nat): seq<int> {
    if n == 0 then [] else Burst(t, n - 1) + [t]
  }

  lemma OneCall(times: seq<int>, t: int, windowMs: int, limit: int, from: int)
    ensures After(times + [t], windowMs) == Some(Increment(After(times, windowMs), t, windowMs))
    ensures AllowedIn(times + [t], windowMs, limit, from)
         == AllowedIn(times, windowMs, limit, from) + if LastAllowed(times + [t], windowMs, limit) && from <= t < from + windowMs then 1 else 0
  {
    assert (times + [t])[..|times|] == times;
  }

  lemma BurstStep(times: seq<int>, t: int, n: nat)
    requires n > 0
    ensures times + Burst(t, n) == times + Burst(t, n - 1) + [t]
  {
    var shorter := Burst(t, n - 1);
    assert times + (shorter + [t]) == times + shorter + [t];
  }

  lemma CallInside(times: seq<int>, t: int, windowMs: int, limit: int, from: int, w: Window)
    requires After(times, windowMs) == Some(w) && t < w.resetAt && from <= t < from + windowMs && w.count < limit
    ensures After(times + [t], windowMs) == Some(Window(w.count + 1, w.resetAt))
    ensures AllowedIn(times + [t], windowMs, limit, from) == AllowedIn(times, windowMs, limit, from) + 1
  {
    OneCall(times, t, windowMs, limit, from);
  }

  /** A burst inside an open window, within the limit and the interval, is allowed call by call. */
  lemma {:induction false} BurstIsAllowed(times: seq<int>, t: int, n: nat, windowMs: int, limit: int, from: int, w: Window)
    requires After(times, windowMs) == Some(w) && t < w.resetAt && from <= t < from + windowMs && w.count + n <= limit
    ensures After(times + Burst(t, n), windowMs) == Some(Window(w.count + n, w.resetAt))
    ensures AllowedIn(times + Burst(t, n), windowMs, limit, from) == AllowedIn(times, windowMs, limit, from) + n
    decreases n
  {
    if n == 0 {
      assert times + Burst(t, n) == times;
    } else {
      BurstIsAllowed(times, t, n - 1, windowMs, limit, from, w);
      BurstStep(times, t, n);
      CallInside(times + Burst(t, n - 1), t, windowMs, limit, from, Window(w.count + n - 1, w.resetAt));
    }
  }

  /** One call opens a window; a burst just before its end and one just after fill two limits within one window length. */
  function TwoBursts(windowMs: int, limit: nat): seq<int>
    requires limit >= 1
  {
    [0] + Burst(windowMs - 1, limit - 1) + [windowMs] + Burst(windowMs, limit - 1)
  }

  lemma {:induction false} BurstTimes(t: int, n: nat)
    ensures forall x :: x in Burst(t, n) ==> x == t
    decreases n
  {
    if n == 0 {
    } else {
      BurstTimes(t, n - 1);
    }
  }

  /** The bound is reached, for every limit and every window of at least two milliseconds. */
  lemma WindowBoundIsTight(windowMs: int, limit: nat)
    requires limit >= 1 && windowMs >= 2
    ensures InOrder(TwoBursts(windowMs, limit))
    ensures AllowedIn(TwoBursts(windowMs, limit), windowMs, limit, windowMs - 1) == 2 * limit - 1
  {
    var from := windowMs - 1;
    TwoBurstsInOrder(windowMs, limit);
    assert [] + [0] == [0];
    OneCall([], 0, windowMs, limit, from);
    BurstIsAllowed([0], windowMs - 1, limit - 1, windowMs, limit, from, Window(1, windowMs));
    var first := [0] + Burst(windowMs - 1, limit - 1);
    OneCall(first, windowMs, windowMs, limit, from);
    BurstIsAllowed(first + [windowMs], windowMs, limit - 1, windowMs, limit, from, Window(1, 2 * windowMs));
  }

  lemma TwoBurstsInOrder(windowMs: int, limit: nat)
    requires limit >= 1 && windowMs >= 2
    ensures InOrder(TwoBursts(windowMs, limit))
  {
    BurstTimes(windowMs - 1, limit - 1);
    BurstTimes(windowMs, limit - 1);
    Append([0], Burst(windowMs - 1, limit - 1), windowMs - 1, windowMs - 1);
    Append([0] + Burst(windowMs - 1, limit - 1), [windowMs], windowMs - 1, windowMs);
    Append([0] + Burst(windowMs - 1, limit - 1) + [windowMs], Burst(windowMs, limit - 1), windowMs, windowMs);
  }

  lemma Append(a: seq<int>, b: seq<int>, low: int, high: int)
    requires InOrder(a) && (forall x :: x in a ==> x <= low) && low <= high && forall x :: x in b ==> x == high
    ensures InOrder(a + b) && forall x :: x in a + b ==> x <= high
  {
    forall i, j | 0 <= i < j < |a + b| ensures (a + b)[i] <= (a + b)[j] {
      assert i < |a| ==> (a + b)[i] in a;
      assert j >= |a| ==> (a + b)[j] in b;
      assert i >= |a| ==> (a + b)[i] in b;
    }
  }

  /** Calls before the window resets count against it but never move the reset. */
  lemma {:induction false} EarlyCallsKeepReset(times: seq<int>, more: seq<int>, windowMs: int)
    requires times != []
    requires forall i :: 0 <= i < |more| ==> more[i] < After(times, windowMs).value.resetAt
    ensures After(times + more, windowMs).Some?
    ensures After(times + more, windowMs).value.resetAt == After(times, windowMs).value.resetAt
    decreases |more|
  {
    if more == [] {
      assert times + more == times;
    } else {
      var init := more[..|more| - 1];
      EarlyCallsKeepReset(times, init, windowMs);
      assert (times + more)[..|times + more| - 1] == times + init;
    }
  }

  /**
   * Waiting as told works: after a refusal, whatever impatient calls come before the window resets, the next call,
   * at or after the advised time, is allowed (unless the limit allows nothing at all).
   */
  lemma WaitingIsRewarded(times: seq<int>, more: seq<int>, windowMs: int, limit: int, later: int)
    requires times != []
    requires Judge(After(times, windowMs).value, times[|times| - 1], limit).Refused?
    requires forall i :: 0 <= i < |more| ==> more[i] < After(times, windowMs).value.resetAt
    requires later >= times[|times| - 1] + 1000 * Judge(After(times, windowMs).value, times[|times| - 1], limit).retryAfterSeconds
    ensures LastAllowed(times + more + [later], windowMs, limit) <==> limit >= 1
  {
    EarlyCallsKeepReset(times, more, windowMs);
    assert (times + more + [later])[..|times + more|] == times + more;
  }

  /** The advised wait is never short, and less than a second too long. */
  lemma AdviceIsTight(w: Window, now: int, limit: int)
    requires Judge(w, now, limit).Refused? && now < w.resetAt
    ensures
      var advised := now + 1000 * Judge(w, now, limit).retryAfterSeconds;
      advised - 1000 < w.resetAt <= advised
  {
  }

  /** The two copies agree on every call exactly when the limit is at least one. */
  lemma CopiesAgreeIff(windowMs: int, limit: int)
    ensures (forall w: Option<Window>, now ::
               Judge(Increment(w, now, windowMs), now, limit).Allowed? <==> MessageAllowed(w, now, windowMs, limit))
            <==> limit >= 1
  {
    if limit < 1 {
      assert MessageAllowed(None, 0, windowMs, limit) && Increment(None, 0, windowMs).count > limit;
    }
  }
}
