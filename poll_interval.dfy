/** `PollInterval` of libraries/github-auth/src/poll-interval.ts: a polling
    interval in milliseconds that can only be slowed down. Seconds are
    integers here; the source's numbers are doubles.
 */
module PollIntervals {

  /** The interval after `slowDown(s)`. */
  function SlowedDown(intervalMs: int, seconds: int): (r: int)
    ensures seconds >= 0 ==> r >= intervalMs
    ensures seconds > 0 ==> r > intervalMs
  {
    intervalMs + seconds * 1000
  }

  /** The interval after `slowDown(ss[0])`, ..., `slowDown(ss[|ss| - 1])`. */
  function AfterSlowDowns(intervalMs: int, ss: seq<int>): int
    decreases |ss|
  {
    if ss == [] then intervalMs else AfterSlowDowns(SlowedDown(intervalMs, ss[0]), ss[1..])
  }

  function Sum(ss: seq<int>): int {
    if ss == [] then 0 else ss[0] + Sum(ss[1..])
  }

  /** After a run of slow-downs the interval is the start plus a thousand
      times their total. */
  lemma {:induction false} AfterSlowDownsSum(intervalMs: int, ss: seq<int>)
    ensures AfterSlowDowns(intervalMs, ss) == intervalMs + 1000 * Sum(ss)
    decreases |ss|
  {
    if ss != [] {
      AfterSlowDownsSum(SlowedDown(intervalMs, ss[0]), ss[1..]);
    }
  }

  /** With non-negative slow-downs the interval never decreases. */
  lemma {:induction false} AfterSlowDownsMonotone(intervalMs: int, ss: seq<int>)
    requires forall i :: 0 <= i < |ss| ==> ss[i] >= 0
    ensures AfterSlowDowns(intervalMs, ss) >= intervalMs
    decreases |ss|
  {
    if ss != [] {
      AfterSlowDownsMonotone(SlowedDown(intervalMs, ss[0]), ss[1..]);
    }
  }

  class PollInterval {
    var intervalMs: int

    /** `new PollInterval(initialIntervalSeconds)` */
    constructor (initialIntervalSeconds: int)
      ensures intervalMs == initialIntervalSeconds * 1000
    {
      intervalMs := initialIntervalSeconds * 1000;
    }

    /** `get()`: reads the interval and changes nothing. */
    method Get() returns (ms: int)
      ensures ms == intervalMs
    {
      ms := intervalMs;
    }

    /** `slowDown(seconds)` */
    method SlowDown(seconds: int)
      modifies this
      ensures intervalMs == SlowedDown(old(intervalMs), seconds)
    {
      intervalMs := intervalMs + seconds * 1000;
    }
  }
}
