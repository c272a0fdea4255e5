/**
 * The firmware's clock: `millis()` and every timestamp derived from it are
 * `unsigned long`, 32 bits on the ESP32, so differences wrap modulo 2^32.
 */
module Millis {

  const WRAP: int := 0x1_0000_0000

  /** An `unsigned long` value. */
  type U32 = x: int | 0 <= x < 0x1_0000_0000

  /**
   * `now - since` as unsigned 32-bit arithmetic computes it: the time that has
   * passed since `since`, correct across one wrap-around of the counter.
   */
  function Elapsed(now: U32, since: U32): (d: U32)
    ensures (since + d) % WRAP == now
    ensures since <= now ==> d == now - since
    ensures now < since ==> d == WRAP - since + now
  {
    (now - since) % WRAP
  }

}
