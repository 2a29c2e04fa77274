/** Time, and the arithmetic of the retry schedule (src/delivery.rs).

    A point in time is a whole number of microseconds, the resolution of a
    `timestamptz` column. */
module Retry {

  type Time = int

  const SECOND: Time := 1_000_000

  const MAX_RETRY_DELAY_SECS := 3600

  function Min(a: int, b: int): int {
    if a <= b then a else b
  }

  function Max(a: int, b: int): int {
    if a <= b then b else a
  }

  function BaseRetryDelaySecs(attemptAfterFailure: int): int {
    if attemptAfterFailure <= 0 then 15
    else if attemptAfterFailure == 1 then 15
    else if attemptAfterFailure == 2 then 60
    else if attemptAfterFailure == 3 then 5 * 60
    else if attemptAfterFailure == 4 then 15 * 60
    else if attemptAfterFailure == 5 then 30 * 60
    else MAX_RETRY_DELAY_SECS
  }

  function JitterWindow(attemptAfterFailure: int): int {
    BaseRetryDelaySecs(attemptAfterFailure) / 5
  }

  /** `random` is the draw from `0..=2 * window`. */
  function RetryDelaySecs(attemptAfterFailure: int, random: int): (delay: int)
    requires 0 <= random <= 2 * JitterWindow(attemptAfterFailure)
    ensures delay == DelayTable(attemptAfterFailure, random)
    ensures LeastDelaySecs(attemptAfterFailure) <= delay <= MAX_RETRY_DELAY_SECS
  {
    var base := BaseRetryDelaySecs(attemptAfterFailure);
    var window := base / 5;
    if window == 0 then Max(base, 1)
    else
      var offset := random - window;
      var jittered := Max(base + offset, 1);
      Min(jittered, MAX_RETRY_DELAY_SECS)
  }

  /** The time of the next attempt when a failure is handled at `now`. */
  function NextAttemptAt(now: Time, deadline: Time, attemptAfterFailure: int, random: int): (next: Time)
    requires now < deadline
    requires 0 <= random <= 2 * JitterWindow(attemptAfterFailure)
    ensures now < next <= deadline
    ensures next < deadline ==> now + LeastDelaySecs(attemptAfterFailure) * SECOND <= next
  {
    var next := now + RetryDelaySecs(attemptAfterFailure, random) * SECOND;
    if next > deadline then deadline else next
  }

  /** The shortest delay the jitter can produce: four fifths of the base delay. */
  function LeastDelaySecs(attemptAfterFailure: int): (delay: int)
    ensures 12 <= delay
  {
    BaseRetryDelaySecs(attemptAfterFailure) - JitterWindow(attemptAfterFailure)
  }

  // ---- the schedule in numbers ----

  /** Seconds to the next attempt for each draw, as a table. */
  function DelayTable(attemptAfterFailure: int, draw: int): int {
    if attemptAfterFailure <= 1 then 12 + draw
    else if attemptAfterFailure == 2 then 48 + draw
    else if attemptAfterFailure == 3 then 240 + draw
    else if attemptAfterFailure == 4 then 720 + draw
    else if attemptAfterFailure == 5 then 1440 + draw
    else if draw <= 720 then 2880 + draw
    else 3600
  }

  /** How many draws there are beside 0. */
  function LastDraw(attemptAfterFailure: int): int {
    if attemptAfterFailure <= 1 then 6
    else if attemptAfterFailure == 2 then 24
    else if attemptAfterFailure == 3 then 120
    else if attemptAfterFailure == 4 then 360
    else if attemptAfterFailure == 5 then 720
    else 1440
  }

  /** The delay of every draw; the middle one gives the documented delays. */
  lemma RetryDelayInNumbers(attemptAfterFailure: int, draw: int)
    ensures 2 * JitterWindow(attemptAfterFailure) == LastDraw(attemptAfterFailure)
    ensures 0 <= draw <= LastDraw(attemptAfterFailure) ==>
              RetryDelaySecs(attemptAfterFailure, draw) == DelayTable(attemptAfterFailure, draw)
    ensures RetryDelaySecs(1, 3) == 15 && RetryDelaySecs(2, 12) == 60 && RetryDelaySecs(3, 60) == 300
    ensures RetryDelaySecs(4, 180) == 900 && RetryDelaySecs(5, 360) == 1800
    ensures attemptAfterFailure >= 6 ==> RetryDelaySecs(attemptAfterFailure, 720) == 3600
  {
  }

  /** The next attempt is due after that delay, or at the deadline if that comes first. */
  lemma NextAttemptInNumbers(now: Time, deadline: Time, attemptAfterFailure: int, draw: int)
    requires now < deadline && 0 <= draw <= LastDraw(attemptAfterFailure)
    ensures 2 * JitterWindow(attemptAfterFailure) == LastDraw(attemptAfterFailure)
    ensures NextAttemptAt(now, deadline, attemptAfterFailure, draw)
            == Min(deadline, now + DelayTable(attemptAfterFailure, draw) * 1_000_000)
  {
    RetryDelayInNumbers(attemptAfterFailure, draw);
  }

  // ---- how fast attempts can follow each other ----

  /** The least number of seconds that pass before attempt `n + 1` can be due:
      the sum of the first `n` shortest delays. */
  function LeastElapsedSecs(n: int): (secs: int)
    ensures 0 <= secs
    decreases Max(n, 0)
  {
    if n <= 0 then 0 else LeastElapsedSecs(n - 1) + LeastDelaySecs(n)
  }

  /** 12 + 48 + 240 + 720 + 1440 seconds for the first five failures, then at
      least 2880 seconds for each further one. */
  lemma {:induction false} LeastElapsedClosedForm(n: nat)
    ensures n >= 5 ==> LeastElapsedSecs(n) == 2460 + 2880 * (n - 5)
    ensures n == 0 ==> LeastElapsedSecs(n) == 0
    ensures n == 1 ==> LeastElapsedSecs(n) == 12
    ensures n == 2 ==> LeastElapsedSecs(n) == 60
    ensures n == 3 ==> LeastElapsedSecs(n) == 300
    ensures n == 4 ==> LeastElapsedSecs(n) == 1020
  {
    if n > 0 {
      LeastElapsedClosedForm(n - 1);
    }
  }

  /** The most attempts a retry window of `windowSecs` seconds can hold. */
  function AttemptBound(windowSecs: int): int
  {
    if windowSecs <= 0 then 1
    else if windowSecs <= 12 then 2
    else if windowSecs <= 60 then 3
    else if windowSecs <= 300 then 4
    else if windowSecs <= 1020 then 5
    else if windowSecs <= 2460 then 6
    else 6 + (windowSecs - 2460 + 2879) / 2880
  }

  /** If attempt `n + 2` exists, a failure was rescheduled before the window
      ended, so `n` least delays fit strictly inside the window; the bound counts
      exactly the attempts for which they do. */
  lemma FittingDelaysBoundAttempts(n: nat, windowSecs: int)
    ensures LeastElapsedSecs(n) < windowSecs <==> n + 2 <= AttemptBound(windowSecs)
  {
    LeastElapsedClosedForm(n);
    assert LeastElapsedSecs(5) == 2460 by {
      LeastElapsedClosedForm(5);
    }
  }
}
