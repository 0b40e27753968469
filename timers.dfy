/**
 * The countdown timers of the level task (medidasNivel.c) and of the
 * consumption task (calculaConsumo.c).  A timer is an `int` count of task
 * activations: `timer_start` loads it with the number of whole task periods
 * in the wanted time, `timer_next` takes one off while it is above 0, and
 * `timer_expired` tests for 0.
 *
 * Both files write the helpers on the pointer instead of the integer it
 * points to.  The `AsWritten` members give what the calls do to the
 * caller's counter as written; the other members are the countdown the
 * helpers' comments and call sites describe, which the task models use.
 */
module Timers {
  import opened CTypes

  /** timer_expired: the countdown has reached 0 (or was never started). */
  predicate Expired(t: int) {
    t == 0
  }

  /**
   * timer_start of medidasNivel.c: the number of whole task periods of
   * `periodoMs` ms in `tiempoMaxMs` ms (C integer division).
   */
  function Start(tiempoMaxMs: int, periodoMs: int): (t: int)
    requires periodoMs != 0
    ensures 0 <= tiempoMaxMs && 0 < periodoMs ==> 0 <= t && t * periodoMs <= tiempoMaxMs < (t + 1) * periodoMs
  {
    if 0 <= tiempoMaxMs && 0 < periodoMs then
      DivBounds(tiempoMaxMs, periodoMs);
      CDiv(tiempoMaxMs, periodoMs)
    else
      CDiv(tiempoMaxMs, periodoMs)
  }

  /** Euclidean division of naturals brackets the dividend. */
  lemma DivBounds(a: int, b: int)
    requires 0 <= a && 0 < b
    ensures 0 <= a / b && (a / b) * b <= a < (a / b + 1) * b
  {
    assert a == (a / b) * b + a % b;
  }

  /**
   * timer_start of calculaConsumo.c: the wait is given in seconds and
   * converted to ms in a C `int` before the division.
   */
  function StartSeconds(tiempoMaxS: int, periodoMs: int): (t: int)
    requires periodoMs != 0
    ensures 0 <= tiempoMaxS <= IntMax / 1000 && 0 < periodoMs ==>
              t * periodoMs <= tiempoMaxS * 1000 < (t + 1) * periodoMs
  {
    Start(Wrap32(tiempoMaxS * 1000), periodoMs)
  }

  /** timer_next: one activation less, never below 0. */
  function Next(t: int): (r: int)
    ensures t > 0 ==> r == t - 1
    ensures t <= 0 ==> r == t
  {
    if t > 0 then t - 1 else t
  }

  /** The counter after `n` activations. */
  function After(t: int, n: nat): int
    decreases n
  {
    if n == 0 then t else After(Next(t), n - 1)
  }

  /**
   * A started countdown reaches 0 after exactly as many activations as it
   * was loaded with, and stays there.
   */
  lemma {:induction false} CountdownExpires(t: int, n: nat)
    requires t >= 0
    ensures After(t, n) == if n >= t then 0 else t - n
    ensures Expired(After(t, n)) <==> n >= t
    decreases n
  {
    if n > 0 {
      CountdownExpires(Next(t), n - 1);
    }
  }

  /**
   * timer_start as written: the quotient is stored into the helper's own
   * pointer parameter, so the caller's counter keeps its value `timer`.
   */
  function StartAsWritten(timer: int, tiempoMaxMs: int, periodoMs: int): (r: int)
    requires periodoMs != 0
  {
    timer
  }

  /** timer_next as written: it decrements its pointer parameter; the caller's counter is unchanged. */
  function NextAsWritten(timer: int): (r: int) {
    timer
  }

  /**
   * As written, a counter that starts at 0 (as both tasks initialise
   * theirs) still reads expired right after being started for a time of
   * at least one period, while the countdown started for that time does
   * not.
   */
  lemma {:induction false} StartAsWrittenExpiresAtOnce(tiempoMaxMs: int, periodoMs: int)
    requires 0 < periodoMs <= tiempoMaxMs
    ensures Expired(StartAsWritten(0, tiempoMaxMs, periodoMs))
    ensures Expired(NextAsWritten(StartAsWritten(0, tiempoMaxMs, periodoMs)))
    ensures !Expired(Start(tiempoMaxMs, periodoMs))
  {
  }
}
