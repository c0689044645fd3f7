/** The request throttle of `src/bcp/utils.py`: before each request the code
    waits until a random interval of 5 to 15 seconds has passed since the
    previous request finished waiting. The module-global time of the previous
    call is the field of a class; the wall clock readings and the random
    interval are parameters. Times are seconds on one clock, as exact reals. */
module Throttle {
  import opened Wrappers

  /** `THROTTLE_TIME`: the bounds of `random.randint`, both included. */
  const MinInterval: int := 5
  const MaxInterval: int := 15

  /** `datetime(year=2000, month=1, day=1)`, in seconds since 1970-01-01. */
  const InitialCallTime: real := 946684800.0

  /** How long a call at `now` sleeps when the previous call finished at
      `prev` and the interval drawn is `r`: just long enough to reach
      `prev + r`, and not at all once that time has strictly passed. */
  function SleepFor(prev: real, now: real, r: int): (d: Option<real>)
    ensures d.Some? <==> now <= prev + r as real
    ensures d.Some? ==> d.value >= 0.0 && now + d.value == prev + r as real
  {
    var throttleFor := r as real - (now - prev);
    if throttleFor >= 0.0 then Some(throttleFor) else None
  }

  /** A clock reading after the sleep, when the sleep lasts at least as long
      as asked for. */
  predicate SleptEnough(start: real, after: real, sleep: Option<real>) {
    after >= start && (sleep.Some? ==> after >= start + sleep.value)
  }

  /** Two calls: the second finishes at least `r` seconds after the first
      finished, whether it slept or not. */
  lemma CallsSpaced(prev: real, start: real, after: real, r: int)
    requires SleptEnough(start, after, SleepFor(prev, start, r))
    ensures after >= prev + r as real
  {
    var d := SleepFor(prev, start, r);
    if d.Some? {
      assert after >= start + d.value;
    } else {
      assert start > prev + r as real;
    }
  }

  /** The first call does not sleep at any time later than 2000-01-01 plus
      the longest interval. */
  lemma FirstCallNeverSleeps(now: real, r: int)
    requires MinInterval <= r <= MaxInterval
    requires now > InitialCallTime + MaxInterval as real
    ensures SleepFor(InitialCallTime, now, r) == None
  {
    assert InitialCallTime + r as real <= InitialCallTime + MaxInterval as real;
  }

  /** The time the previous throttled call finished, `_prev_call_time`. */
  class Gate {
    var prevCallTime: real

    /** `_prev_call_time = datetime(year=2000, month=1, day=1)` */
    constructor ()
      ensures prevCallTime == InitialCallTime
    {
      prevCallTime := InitialCallTime;
    }

    /** `throttle()`, called at clock time `start` with interval `r` drawn.
        With `debug` it does nothing. Otherwise it sleeps for `SleepFor`,
        after which the clock reads `after`, and records `after`. The result
        is the sleep taken. */
    method Throttle(debug: bool, start: real, after: real, r: int) returns (sleep: Option<real>)
      requires MinInterval <= r <= MaxInterval
      requires !debug ==> SleptEnough(start, after, SleepFor(prevCallTime, start, r))
      modifies this
      ensures debug ==> sleep == None && prevCallTime == old(prevCallTime)
      ensures !debug ==> sleep == SleepFor(old(prevCallTime), start, r) && prevCallTime == after
      ensures !debug ==> prevCallTime >= old(prevCallTime) + MinInterval as real
    {
      if debug {
        return None;
      }
      var timeDiff := start - prevCallTime;
      var throttleFor := r as real - timeDiff;
      if throttleFor >= 0.0 {
        sleep := Some(throttleFor);
      } else {
        sleep := None;
      }
      CallsSpaced(prevCallTime, start, after, r);
      prevCallTime := after;
    }
  }
}
