/** The daily water norm of handlers.py (line 133): 30 ml per kilogram, 500 ml
    per full 30 minutes of daily activity, a 500 ml baseline, and 1000 ml more
    when the temperature is strictly above 25. The temperature is the number
    the weather service reports, in whatever unit it reports: the request on
    handlers.py line 128 names no unit, so no conversion happens before the
    comparison. */
module WaterNorm {

  const HOT_THRESHOLD: real := 25.0

  /** The hot-weather bonus; Python's `1000*(temperature>25)` multiplies by a bool. */
  function HeatBonus(temperature: real): int
  {
    if temperature > HOT_THRESHOLD then 1000 else 0
  }

  /** `weight*30 + 500*(activity//30) + 500 + 1000*(temperature>25)`. Dafny's
      `/` with the positive divisor 30 rounds towards minus infinity, as
      Python's `//` does. */
  function DailyWaterNorm(weight: int, activityMinutes: int, temperature: real): int
  {
    weight * 30 + 500 * (activityMinutes / 30) + 500 + HeatBonus(temperature)
  }

  /** No bonus up to and including 25; exactly 1000 ml above it. */
  lemma HeatBonusIsStrictStep(weight: int, activityMinutes: int, temperature: real)
    ensures temperature <= 25.0 ==> DailyWaterNorm(weight, activityMinutes, temperature) == DailyWaterNorm(weight, activityMinutes, 25.0)
    ensures temperature > 25.0 ==> DailyWaterNorm(weight, activityMinutes, temperature) == DailyWaterNorm(weight, activityMinutes, 25.0) + 1000
  {
  }

  /** The activity term counts whole 30-minute blocks: with `k` full blocks
      the norm is as if the activity were exactly `30 * k` minutes, and each
      block adds 500 ml. */
  lemma ActivityCountsFullBlocks(weight: int, activityMinutes: int, k: int, temperature: real)
    requires 30 * k <= activityMinutes < 30 * k + 30
    ensures DailyWaterNorm(weight, activityMinutes, temperature) == weight * 30 + 500 * k + 500 + HeatBonus(temperature)
  {
  }

  /** The norm never decreases when the weight grows. */
  lemma NonDecreasingInWeight(w1: int, w2: int, activityMinutes: int, temperature: real)
    requires w1 <= w2
    ensures DailyWaterNorm(w1, activityMinutes, temperature) <= DailyWaterNorm(w2, activityMinutes, temperature)
  {
  }

  /** The norm never decreases when the activity grows. */
  lemma NonDecreasingInActivity(weight: int, a1: int, a2: int, temperature: real)
    requires a1 <= a2
    ensures DailyWaterNorm(weight, a1, temperature) <= DailyWaterNorm(weight, a2, temperature)
  {
  }
}
