/**
 * Game time (src/timer.rs): a millisecond time stamp and the timer resource
 * that accumulates frame deltas. A fresh timer starts at 1 ms so that 0 can
 * mean "not initialised yet" in time stamps stored elsewhere.
 */
module Timer {

  /** `GameTime`: milliseconds; its derived ordering is the ordering of this number. */
  datatype GameTime = GameTime(ms: nat)

  /** `GameTime::ZERO`: the "uninitialised" stamp. */
  const ZERO: GameTime := GameTime(0)

  /** `GameTime::from_millis` */
  function FromMillis(millis: nat): (t: GameTime)
    ensures t.ms == millis
  {
    GameTime(millis)
  }

  /** `GameTime::add_millis`: `GameTime` is a `Copy` value, so the update is the stamp it leaves. */
  function AddMillis(t: GameTime, millis: nat): (r: GameTime)
    ensures r.ms == t.ms + millis
    ensures millis > 0 ==> r.ms > t.ms
  {
    GameTime(t.ms + millis)
  }

  /** Nanoseconds per millisecond: `Duration` counts nanoseconds, `as_millis` truncates. */
  const NANOS_PER_MILLI: nat := 1_000_000

  /** `GameTimer`: the accumulated duration and the stamp derived from it. */
  class GameTimer {
    /** Accumulated duration, in nanoseconds. */
    var duration: nat
    var time: GameTime

    /** The stamp is the accumulated duration in whole milliseconds, at least 1 ms. */
    predicate Valid()
      reads this
    {
      time.ms == duration / NANOS_PER_MILLI && duration >= NANOS_PER_MILLI
    }

    /** `GameTimer::default`: 1 ms accumulated, time 1. */
    constructor Default()
      ensures Valid()
      ensures duration == NANOS_PER_MILLI && time == GameTime(1)
    {
      duration := NANOS_PER_MILLI;
      time := GameTime(1);
    }

    /** `GameTimer::add_dt`: accumulate `dt` nanoseconds and re-derive the stamp. */
    method AddDt(dt: nat)
      requires Valid()
      modifies this
      ensures Valid()
      ensures duration == old(duration) + dt
      ensures time == GameTime(duration / NANOS_PER_MILLI)
      ensures old(time).ms <= time.ms
      ensures time != ZERO
    {
      duration := duration + dt;
      time := GameTime(duration / NANOS_PER_MILLI);
    }

    /** `GameTimer::time`: never the uninitialised stamp once the timer is valid. */
    function Time(): (t: GameTime)
      reads this
      ensures t == time
      ensures Valid() ==> t.ms >= 1
    {
      time
    }
  }
}
