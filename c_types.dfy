/**
 * The few C semantics the firmware relies on and that Dafny's mathematical
 * integers and reals do not give for free: the 32-bit `int` of the ESP32,
 * C's integer division (which truncates toward zero), the `double` to `int`
 * conversion (which also truncates toward zero) and the promotion of `bool`
 * to `int` used by the guard formulas.
 */
module CTypes {

  datatype Option<T> = None | Some(value: T)

  /** Smallest and largest value of a 32-bit C `int`. */
  const IntMin: int := -0x8000_0000
  const IntMax: int := 0x7FFF_FFFF
  const Modulus32: int := 0x1_0000_0000

  predicate InInt32(x: int) {
    IntMin <= x <= IntMax
  }

  /**
   * The value a 32-bit two's-complement register holds after an operation
   * whose exact result is `x`.  (Signed overflow is undefined in C; the model
   * represents it by the wrap-around the target produces.)
   */
  function Wrap32(x: int): (r: int)
    ensures InInt32(r)
    ensures InInt32(x) ==> r == x
    ensures (x - r) % Modulus32 == 0
  {
    (x - IntMin) % Modulus32 + IntMin
  }

  /** `a / b` on C integers: the quotient truncated toward zero. */
  function CDiv(a: int, b: int): (q: int)
    requires b != 0
    ensures 0 <= a && 0 < b ==> q == a / b
    ensures a < 0 && 0 < b ==> q == -((-a) / b)
  {
    var n := if a < 0 then -a else a;
    var d := if b < 0 then -b else b;
    if (0 <= a) == (0 < b) then n / d else -(n / d)
  }

  /** The C conversion of a `double` to an `int`: truncation toward zero. */
  function TruncToInt(r: real): (n: int)
    ensures 0.0 <= r ==> 0 <= n && n as real <= r < n as real + 1.0
    ensures r < 0.0 ==> n <= 0 && n as real - 1.0 < r <= n as real
  {
    if 0.0 <= r then r.Floor else -((-r).Floor)
  }

  /** C's promotion of a `bool` to the `int` 0 or 1. */
  function BoolToInt(b: bool): (i: int)
    ensures 0 <= i <= 1
    ensures (i != 0) == b
  {
    if b then 1 else 0
  }
}

/**
 * Mutual exclusion as the model sees it.  Every `xSemaphoreTake(mutex, 10)`
 * of the firmware either succeeds or times out; which one happens depends on
 * the other tasks and is not modelled.  A task cycle therefore receives the
 * outcomes of its successive acquisitions as a sequence `locks`: the k-th
 * acquisition of the cycle succeeds exactly when `Granted(locks, k)`, and
 * acquisitions beyond the end of the sequence succeed (contention is finite).
 */
module Mutex {

  predicate Granted(locks: seq<bool>, k: nat) {
    k >= |locks| || locks[k]
  }

  /** No acquisition of the cycle times out. */
  predicate AllGranted(locks: seq<bool>) {
    forall i :: 0 <= i < |locks| ==> locks[i]
  }

  /** How many outcomes are still to be drawn after `k` acquisitions. */
  function Pending(locks: seq<bool>, k: nat): (p: nat)
    ensures p == 0 <==> k >= |locks|
  {
    if k < |locks| then |locks| - k else 0
  }
}
