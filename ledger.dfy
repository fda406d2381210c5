/** `WaterLoggerClass` of handlers.py: a nullable daily water norm and a
    running consumption total. `LedgerState` is the value of its two fields;
    the class `WaterLogger` is the mutable object the handlers update. */
module Ledger {
  import opened Wrappers

  datatype LedgerState = LedgerState(norm: Option<int>, consumption: int)

  /** The fields as `__init__` leaves them: no norm, nothing drunk yet. */
  function Initial(): LedgerState
  {
    LedgerState(None, 0)
  }

  /** `update_water_consumption`: add the volume, with no floor at zero. */
  function AddConsumption(l: LedgerState, volume: int): LedgerState
  {
    l.(consumption := l.consumption + volume)
  }

  /** `update_water_norm`: overwrite the norm. */
  function SetNorm(l: LedgerState, norm: int): LedgerState
  {
    l.(norm := Some(norm))
  }

  /** Setting the same norm twice is the same as setting it once. */
  lemma SetNormIdempotent(l: LedgerState, norm: int)
    ensures SetNorm(SetNorm(l, norm), norm) == SetNorm(l, norm)
  {
  }

  /** A later norm replaces an earlier one entirely. */
  lemma SetNormOverwrites(l: LedgerState, first: int, second: int)
    ensures SetNorm(SetNorm(l, first), second) == SetNorm(l, second)
  {
  }

  /** Consumption accumulates: two additions are one addition of the sum,
      and negative volumes lower the total below zero if they are large enough. */
  lemma AddConsumptionAccumulates(l: LedgerState, v1: int, v2: int)
    ensures AddConsumption(AddConsumption(l, v1), v2) == AddConsumption(l, v1 + v2)
    ensures AddConsumption(l, v1).consumption < 0 <==> v1 < -l.consumption
  {
  }

  /** The two updates touch disjoint fields, so their order does not matter. */
  lemma UpdatesCommute(l: LedgerState, volume: int, norm: int)
    ensures SetNorm(AddConsumption(l, volume), norm) == AddConsumption(SetNorm(l, norm), volume)
    ensures SetNorm(l, norm).consumption == l.consumption
    ensures AddConsumption(l, volume).norm == l.norm
  {
  }

  class WaterLogger {
    var dailyWaterNorm: Option<int>
    var waterConsumption: int

    function Snapshot(): LedgerState
      reads this
    {
      LedgerState(dailyWaterNorm, waterConsumption)
    }

    constructor ()
      ensures Snapshot() == Initial()
    {
      dailyWaterNorm := None;
      waterConsumption := 0;
    }

    method UpdateWaterConsumption(waterVolume: int)
      modifies this
      ensures Snapshot() == AddConsumption(old(Snapshot()), waterVolume)
      ensures waterConsumption == old(waterConsumption) + waterVolume
      ensures dailyWaterNorm == old(dailyWaterNorm)
    {
      waterConsumption := waterConsumption + waterVolume;
    }

    method UpdateWaterNorm(waterNorm: int)
      modifies this
      ensures Snapshot() == SetNorm(old(Snapshot()), waterNorm)
      ensures dailyWaterNorm == Some(waterNorm)
      ensures waterConsumption == old(waterConsumption)
    {
      dailyWaterNorm := Some(waterNorm);
    }
  }

  /** Calling `update_water_norm` twice with one value leaves the object in the
      state a single call leaves it in. */
  method UpdateNormTwice(logger: WaterLogger, waterNorm: int)
    modifies logger
    ensures logger.Snapshot() == SetNorm(old(logger.Snapshot()), waterNorm)
  {
    logger.UpdateWaterNorm(waterNorm);
    logger.UpdateWaterNorm(waterNorm);
    SetNormIdempotent(old(logger.Snapshot()), waterNorm);
  }
}
