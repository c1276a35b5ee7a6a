/**
 * src/utils.ts. `isTimeout` reads the clock; here the clock reading `now`
 * (milliseconds, like `start`) is a parameter. `sleep` is not part of this model.
 */
module Utils {

  /** True once more than `timeoutSeconds` seconds have passed since `start`. */
  predicate IsTimeout(start: int, timeoutSeconds: int, now: int)
  {
    now > start + timeoutSeconds * 1000
  }

  /** The comparison is strict: exactly at the deadline the wait has not timed out. */
  lemma NotTimedOutAtDeadline(start: int, timeoutSeconds: int)
    ensures !IsTimeout(start, timeoutSeconds, start + timeoutSeconds * 1000)
    ensures IsTimeout(start, timeoutSeconds, start + timeoutSeconds * 1000 + 1)
  {
  }

  /** Once timed out, every later clock reading is timed out too. */
  lemma TimeoutIsMonotone(start: int, timeoutSeconds: int, now: int, later: int)
    requires IsTimeout(start, timeoutSeconds, now) && now <= later
    ensures IsTimeout(start, timeoutSeconds, later)
  {
  }

  /** A zero timeout expires at every instant after the start. */
  lemma ZeroTimeoutExpiresAfterStart(start: int, now: int)
    ensures IsTimeout(start, 0, now) <==> now > start
  {
  }
}
