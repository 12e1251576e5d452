/** epoll_wait restarted after signals: the remaining timeout is recomputed from a clock that is
    rounded to milliseconds, and the wake-up time stays within a millisecond of the request. */
module EpollDeadline {

  const NS_PER_MS: int := 1_000_000
  const NS_PER_SEC: int := 1_000_000_000

  /** now_ms: a reading of CLOCK_MONOTONIC (in nanoseconds) rounded to the nearest millisecond. */
  function NowMs(t: nat): nat {
    (t / NS_PER_SEC) * 1000 + (t % NS_PER_SEC + 500_000) / NS_PER_MS
  }

  /** The rounding error is at most half a millisecond, and never carries wrongly into the seconds. */
  lemma NowMsRounds(t: nat)
    ensures -500_000 < NowMs(t) * NS_PER_MS - t <= 500_000
  {
  }

  lemma NowMsMonotone(t: nat, u: nat)
    requires t <= u
    ensures NowMs(t) <= NowMs(u)
  {
  }

  /** What one epoll_wait(2) does: it delivers, or fails at a time, perhaps because of a signal,
      perhaps with the descriptor closed meanwhile. */
  datatype Attempt = Ready(n: nat) | Fails(at: nat, eintr: bool, closed: bool)

  predicate Restarts(a: Attempt) {
    a.Fails? && a.eintr && !a.closed
  }

  datatype Result = Events(n: nat) | SystemError | IOError | StillWaiting

  ghost predicate Nondecreasing(start: nat, script: seq<Attempt>) {
    forall k :: 0 <= k < |script| && script[k].Fails? ==> start <= script[k].at
  }

  /** Retry at time `t` with timeout `w` wakes up less than a millisecond from the deadline, on either
      side; or the deadline has passed and the retry does not sleep. */
  ghost predicate OnTime(start: nat, timeout: int, t: nat, w: int) {
    var deadline := start + timeout * NS_PER_MS;
    && 0 <= w <= timeout
    && (|| -NS_PER_MS < t + w * NS_PER_MS - deadline < NS_PER_MS
        || (w == 0 && deadline < t))
  }

  lemma RetryOnTime(start: nat, timeout: int, t: nat)
    requires 0 < timeout && start <= t
    ensures
      var expire := NowMs(start) + timeout;
      OnTime(start, timeout, t, if NowMs(t) > expire then 0 else expire - NowMs(t))
  {
  }

  /** real_epwait and epoll_resume_p.  `waits` logs the timeout of every epoll_wait issued.  The
      bounds hold for each retry by itself, so rounding never adds up over any number of signals. */
  method RealEpwait(timeout: int, start: nat, script: seq<Attempt>) returns (waits: seq<int>, result: Result)
    requires -0x8000_0000 <= timeout <= 0x7fff_ffff
    requires Nondecreasing(start, script)
    ensures 1 <= |waits| <= |script| + 1 && waits[0] == timeout
    ensures forall k :: 0 <= k < |waits| - 1 ==> script[k].Fails? && script[k].eintr && !script[k].closed
    ensures timeout < 0 ==> forall k :: 0 <= k < |waits| ==> waits[k] == timeout
    ensures timeout == 0 ==> forall k :: 0 <= k < |waits| ==> waits[k] == 0
    ensures timeout > 0 ==> forall k :: 0 <= k < |waits| - 1 ==>
              Restarts(script[k]) && OnTime(start, timeout, script[k].at, waits[k + 1])
    ensures result.StillWaiting? <==> |waits| == |script| + 1
    ensures |waits| <= |script| ==>
              match script[|waits| - 1]
              case Ready(n) => result == Events(n)
              case Fails(_, eintr, closed) => result == (if closed then IOError else SystemError) && (closed || !eintr)
  {
    var left := timeout;
    var expireAt := if timeout > 0 then NowMs(start) + timeout else 0;
    waits := [left];
    var i := 0;
    while i < |script|
      invariant 0 <= i <= |script| && |waits| == i + 1 && waits[0] == timeout && waits[i] == left
      invariant forall k :: 0 <= k < i ==> Restarts(script[k])
      invariant timeout < 0 ==> forall k :: 0 <= k <= i ==> waits[k] == timeout
      invariant timeout == 0 ==> forall k :: 0 <= k <= i ==> waits[k] == 0
      invariant timeout > 0 ==> left >= 0 && forall k :: 0 <= k < i ==>
                  Restarts(script[k]) && OnTime(start, timeout, script[k].at, waits[k + 1])
    {
      match script[i]
      case Ready(n) => return waits, Events(n);
      case Fails(at, eintr, closed) =>
        if closed { return waits, IOError; }
        if !eintr { return waits, SystemError; }
        if left >= 0 {
          if timeout > 0 { RetryOnTime(start, timeout, at); }
          left := if NowMs(at) > expireAt then 0 else expireAt - NowMs(at);
        }
        waits := waits + [left];
        i := i + 1;
    }
    return waits, StillWaiting;
  }
}
