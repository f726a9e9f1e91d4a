/** Deadlines, and the two helpers that read and wait for a timer. */
module Timers {
  import opened Values

  /** The longest delay `setTimeout` honours, in milliseconds. */
  const MAX_TIMER_MS: real := 2147483647.0

  /** A moment or a duration in milliseconds; `Never` is `Infinity`. */
  datatype Limit = At(time: real) | Never

  /** What an option may be set to, as far as a timer looks at it. */
  datatype Setting = Unset | Number(value: real) | Infinite | Other

  datatype Read = Value(limit: Option<Limit>) | RangeError

  /** `readTimerOption()`; `NaN` and negative infinity are among the `Other` values it refuses. */
  function ReadTimerOption(setting: Setting): Read {
    match setting
    case Unset => Value(None)
    case Infinite => Value(Some(Never))
    case Number(ms) => if 0.0 <= ms <= MAX_TIMER_MS then Value(Some(At(ms))) else RangeError
    case _ => RangeError
  }

  function Max(a: real, b: real): real {
    if a < b then b else a
  }

  function Min(a: real, b: real): real {
    if a < b then a else b
  }

  /** When the timer of `waitUpTo(ms, work)` fires. */
  function FiresAt(now: real, ms: Limit): Limit {
    match ms
    case Never => Never
    case At(t) => At(now + Min(Max(t, 0.0), MAX_TIMER_MS))
  }

  /** `deadline - now` */
  function Left(deadline: Limit, now: real): Limit {
    match deadline
    case Never => Never
    case At(t) => At(t - now)
  }

  /** `Date.now() + ms` */
  function DeadlineOf(now: real, ms: Limit): Limit {
    match ms
    case Never => Never
    case At(t) => At(now + t)
  }

  predicate Before(now: real, limit: Limit) {
    limit.Never? || now < limit.time
  }

  predicate NotPast(now: real, limit: Limit) {
    limit.Never? || now <= limit.time
  }

  /** Whether a timer may be set to `ms` without being cut short. */
  predicate Honoured(ms: Limit) {
    ms.Never? || 0.0 <= ms.time <= MAX_TIMER_MS
  }

  /**
   * Every option the client or server accepts gives deadlines that one timer
   * can wait for: it fires at the deadline, neither at once nor before it.
   */
  lemma {:induction false} AcceptedOptionsAreHonoured(setting: Setting, begun: real, now: real)
    requires ReadTimerOption(setting).Value? && ReadTimerOption(setting).limit.Some? && begun <= now
    ensures
      var deadline := DeadlineOf(begun, ReadTimerOption(setting).limit.value);
      Before(now, deadline) ==> FiresAt(now, Left(deadline, now)) == deadline
  {
  }
}
