/**
 * The level monitor of `updateBinLevel`: an echo distance becomes a fill
 * percentage through Arduino's integer `map` and `constrain`, the percentage
 * becomes an estimated weight, and the weight is compared with the full
 * threshold. Weights are floats in the firmware and reals here.
 */
module LevelMonitor {

  /** Distance (cm) at which the bin reads 100 percent full. */
  const NEAR_CM: int := 5
  /** Distance (cm) at which the bin reads empty. */
  const FAR_CM: int := 50
  /** kg held by a full compartment. */
  const MAX_BIN_CAPACITY: real := 10.0
  /** kg from which a compartment counts as full (90 percent). */
  const BIN_FULL_THRESHOLD: real := 9.0

  /** C's `/` on `long`: the quotient truncated toward zero. */
  function TruncDiv(a: int, b: int): (q: int)
    requires b != 0
    ensures b > 0 && a >= 0 ==> q * b <= a < q * b + b
    ensures b > 0 && a < 0 ==> q * b - b < a <= q * b
  {
    if a >= 0 then a / b else -((-a) / b)
  }

  /** A nonzero multiple of a positive d is at least d away from zero. */
  lemma MultipleBounds(d: int, t: int)
    requires d > 0
    ensures t >= 1 ==> d * t >= d
    ensures t <= -1 ==> d * t <= -d
  {
    if t >= 1 {
      assert d * t == d * (t - 1) + d;
      assert d * (t - 1) >= 0;
    } else if t <= -1 {
      assert d * t == d * (t + 1) - d;
      assert d * (t + 1) <= 0;
    }
  }

  /** Dividing an exact multiple gives back the factor, whatever its sign. */
  lemma TruncDivExact(k: int, d: int)
    requires d > 0
    ensures TruncDiv(d * k, d) == k
  {
    var a := if k >= 0 then k else -k;
    var q, r := (d * a) / d, (d * a) % d;
    assert d * (a - q) == r;
    MultipleBounds(d, a - q);
    assert d * k == if k >= 0 then d * a else -(d * a);
  }

  /** Arduino's `map` on `long` arguments. */
  function ArduinoMap(x: int, inMin: int, inMax: int, outMin: int, outMax: int): (y: int)
    requires inMax != inMin
    ensures x == inMin ==> y == outMin
    ensures inMin < inMax && x == inMax ==> y == outMax
  {
    if inMin < inMax && x == inMax then
      TruncDivExact(outMax - outMin, inMax - inMin);
      TruncDiv((x - inMin) * (outMax - outMin), inMax - inMin) + outMin
    else
      TruncDiv((x - inMin) * (outMax - outMin), inMax - inMin) + outMin
  }

  /** `map(distance, 5, 50, 100, 0)`, the distance truncated to whole centimetres. */
  function DistanceToLevel(distanceCm: int): (level: int)
    ensures NEAR_CM <= distanceCm <= FAR_CM ==> 0 <= level <= 100
    ensures distanceCm <= NEAR_CM ==> level >= 100
    ensures distanceCm >= FAR_CM ==> level <= 0
    ensures distanceCm == NEAR_CM ==> level == 100
    ensures distanceCm == FAR_CM ==> level == 0
  {
    ArduinoMap(distanceCm, NEAR_CM, FAR_CM, 100, 0)
  }

  /** Arduino's `constrain`: the point of [lo, hi] nearest to x. */
  function Constrain(x: int, lo: int, hi: int): (r: int)
    requires lo <= hi
    ensures lo <= r <= hi
    ensures r == x <==> lo <= x <= hi
    ensures x <= lo ==> r == lo
    ensures x >= hi ==> r == hi
  {
    if x < lo then lo else if x > hi then hi else x
  }

  /** What one level update derives from a sample. */
  datatype Reading = Reading(level: int, weight: real, full: bool)

  /**
   * The reading for a raw `map` result: the clamped percentage, the weight
   * `level / 100 * MAX_BIN_CAPACITY`, and whether that weight reaches the
   * threshold, which happens exactly from a sample of 90 on.
   */
  function Read(sample: int): (r: Reading)
    ensures 0 <= r.level <= 100
    ensures 0.0 <= r.weight <= MAX_BIN_CAPACITY
    ensures r.full <==> r.weight >= BIN_FULL_THRESHOLD
    ensures r.full <==> sample >= 90
    ensures r.weight * 10.0 == r.level as real
    ensures r.level == Constrain(sample, 0, 100)
  {
    var level := Constrain(sample, 0, 100);
    var weight := (level as real / 100.0) * MAX_BIN_CAPACITY;
    Reading(level, weight, weight >= BIN_FULL_THRESHOLD)
  }

  /** Fill readings grow with the sample: a fuller sample never reads lighter. */
  lemma ReadMonotonic(a: int, b: int)
    requires a <= b
    ensures Read(a).weight <= Read(b).weight
    ensures Read(a).full ==> Read(b).full
  {
  }

  /**
   * From the measured distance: a compartment reads full exactly when the
   * echo puts the surface at 9 cm or nearer, so a distance of 0 (an echo
   * that never returned) reads full too.
   */
  lemma FullWithinNineCentimetres(distanceCm: int)
    ensures Read(DistanceToLevel(distanceCm)).full <==> distanceCm <= 9
  {
  }
}
