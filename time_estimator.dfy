// Processing-time estimate of a quote (internal/services/pricing/time_estimator.go):
// raster area and vector length are engraved, cut length is cut, each at a
// base speed scaled by the engrave type's speed multiplier and the
// material's factor; per-piece times are multiplied by the quantity and a
// fixed setup time is added once.
module TimeEstimator {
  import opened ConfigLoader
  import opened SvgAnalyses

  // The estimator's own base speeds; it does not read the configurable ones.
  const BaseEngraveAreaSpeed: real := 500.0   // mm² per minute, raster
  const BaseEngraveLineSpeed: real := 100.0   // mm per minute, vector
  const BaseCutSpeed: real := 20.0            // mm per minute
  const SetupTimeMinutes: real := 5.0

  datatype TimeEstimate = TimeEstimate(engraveMins: real, cutMins: real, setupMins: real, totalMins: real)

  datatype SpeedInfo = SpeedInfo(
    baseEngraveAreaSpeed: real,
    baseEngraveLineSpeed: real,
    baseCutSpeed: real,
    effectiveRasterSpeed: real,
    effectiveVectorSpeed: real,
    effectiveCutSpeed: real,
    speedMultiplier: real,
    materialFactor: real)

  /** A configured factor that is not positive is replaced by 1. */
  function PositiveOrOne(x: real): (r: real)
    ensures r > 0.0
    ensures x > 0.0 ==> r == x
    ensures x <= 0.0 ==> r == 1.0
  {
    if x <= 0.0 then 1.0 else x
  }

  function SpeedMultiplier(c: PricingConfig, engraveTypeID: nat): real
  {
    PositiveOrOne(c.EngraveTypeSpeedMultiplier(engraveTypeID))
  }

  function Hardness(c: PricingConfig, materialID: nat): real
  {
    PositiveOrOne(c.MaterialFactor(materialID))
  }

  /** The speed of a base speed scaled up by the multiplier and down by the material factor. */
  function Effective(base: real, speedMult: real, materialFactor: real): (speed: real)
    requires base > 0.0 && speedMult > 0.0 && materialFactor > 0.0
    ensures speed > 0.0
  {
    base * speedMult / materialFactor
  }

  /** The cutting speed slowed down by the material factor. */
  function CutSpeed(materialFactor: real): (speed: real)
    requires materialFactor > 0.0
    ensures speed > 0.0
  {
    BaseCutSpeed / materialFactor
  }

  /** The time one piece takes to engrave: raster area plus vector length, each at its speed. */
  function UnitEngraveMins(c: PricingConfig, a: SvgAnalysis, materialID: nat, engraveTypeID: nat): (mins: real)
    ensures mins >= 0.0
    ensures mins > 0.0 <==> a.HasEngraveOperations()
  {
    var sm := SpeedMultiplier(c, engraveTypeID);
    var mf := Hardness(c, materialID);
    (if a.rasterAreaMM2 > 0.0 then a.rasterAreaMM2 / Effective(BaseEngraveAreaSpeed, sm, mf) else 0.0)
    + (if a.vectorLengthMM > 0.0 then a.vectorLengthMM / Effective(BaseEngraveLineSpeed, sm, mf) else 0.0)
  }

  /** The time one piece takes to cut; the engrave type plays no part. */
  function UnitCutMins(c: PricingConfig, a: SvgAnalysis, materialID: nat): (mins: real)
    ensures mins >= 0.0
    ensures mins > 0.0 <==> a.HasCutOperations()
  {
    if a.cutLengthMM > 0.0 then a.cutLengthMM / CutSpeed(Hardness(c, materialID)) else 0.0
  }

  /** The engrave minutes of `quantity` pieces. */
  function OrderEngraveMins(c: PricingConfig, a: SvgAnalysis, materialID: nat, engraveTypeID: nat, quantity: int): real
  {
    UnitEngraveMins(c, a, materialID, engraveTypeID) * quantity as real
  }

  /** The cut minutes of `quantity` pieces. */
  function OrderCutMins(c: PricingConfig, a: SvgAnalysis, materialID: nat, quantity: int): real
  {
    UnitCutMins(c, a, materialID) * quantity as real
  }

  /**
   * Estimate: per-piece engrave and cut times multiplied by the quantity,
   * the setup time once, and their sum as the total. The technology id is
   * accepted and not used.
   */
  method Estimate(c: PricingConfig, a: SvgAnalysis, techID: nat, materialID: nat, engraveTypeID: nat, quantity: int)
    returns (estimate: TimeEstimate)
    ensures estimate.engraveMins == OrderEngraveMins(c, a, materialID, engraveTypeID, quantity)
    ensures estimate.cutMins == OrderCutMins(c, a, materialID, quantity)
    ensures estimate.setupMins == SetupTimeMinutes
    ensures estimate.totalMins == estimate.setupMins + estimate.engraveMins + estimate.cutMins
  {
    estimate := TimeEstimate(0.0, 0.0, 0.0, 0.0);
    var engraveMins, cutMins := UnitTimes(c, a, materialID, engraveTypeID);
    estimate := estimate.(engraveMins := engraveMins, cutMins := cutMins);

    estimate := estimate.(setupMins := SetupTimeMinutes);

    var perUnitTime := estimate.engraveMins + estimate.cutMins;
    estimate := estimate.(totalMins := estimate.setupMins + perUnitTime * quantity as real);

    estimate := estimate.(engraveMins := estimate.engraveMins * quantity as real);
    estimate := estimate.(cutMins := estimate.cutMins * quantity as real);
    Distribute(engraveMins, cutMins, quantity as real);
  }

  /**
   * The first half of Estimate: the factors clamped to positive values and
   * the engrave and cut minutes of one piece accumulated from them.
   */
  method UnitTimes(c: PricingConfig, a: SvgAnalysis, materialID: nat, engraveTypeID: nat)
    returns (engraveMins: real, cutMins: real)
    ensures engraveMins == UnitEngraveMins(c, a, materialID, engraveTypeID)
    ensures cutMins == UnitCutMins(c, a, materialID)
  {
    engraveMins, cutMins := 0.0, 0.0;

    var speedMult := c.EngraveTypeSpeedMultiplier(engraveTypeID);
    if speedMult <= 0.0 {
      speedMult := 1.0;
    }
    var materialFactor := c.MaterialFactor(materialID);
    if materialFactor <= 0.0 {
      materialFactor := 1.0;
    }

    if a.rasterAreaMM2 > 0.0 {
      var effectiveRasterSpeed := BaseEngraveAreaSpeed * speedMult / materialFactor;
      var rasterTime := a.rasterAreaMM2 / effectiveRasterSpeed;
      engraveMins := engraveMins + rasterTime;
    }
    if a.vectorLengthMM > 0.0 {
      var effectiveVectorSpeed := BaseEngraveLineSpeed * speedMult / materialFactor;
      var vectorTime := a.vectorLengthMM / effectiveVectorSpeed;
      engraveMins := engraveMins + vectorTime;
    }
    if a.cutLengthMM > 0.0 {
      var effectiveCutSpeed := BaseCutSpeed / materialFactor;
      cutMins := a.cutLengthMM / effectiveCutSpeed;
    }
  }

  lemma Distribute(e: real, c: real, q: real)
    ensures (e + c) * q == e * q + c * q
  {
  }

  /** EstimatePerUnit: the estimate of a single piece. */
  method EstimatePerUnit(c: PricingConfig, a: SvgAnalysis, techID: nat, materialID: nat, engraveTypeID: nat)
    returns (estimate: TimeEstimate)
    ensures estimate.engraveMins == UnitEngraveMins(c, a, materialID, engraveTypeID)
    ensures estimate.cutMins == UnitCutMins(c, a, materialID)
    ensures estimate.setupMins == SetupTimeMinutes
    ensures estimate.totalMins == SetupTimeMinutes + estimate.engraveMins + estimate.cutMins
  {
    estimate := Estimate(c, a, techID, materialID, engraveTypeID, 1);
  }

  /** GetSpeedInfo: the base speeds and the effective speeds after the multiplier and material factor. */
  function GetSpeedInfo(c: PricingConfig, materialID: nat, engraveTypeID: nat): (info: SpeedInfo)
    ensures info.speedMultiplier > 0.0 && info.materialFactor > 0.0
    ensures info.effectiveRasterSpeed > 0.0 && info.effectiveVectorSpeed > 0.0 && info.effectiveCutSpeed > 0.0
  {
    var sm := SpeedMultiplier(c, engraveTypeID);
    var mf := Hardness(c, materialID);
    SpeedInfo(
      BaseEngraveAreaSpeed, BaseEngraveLineSpeed, BaseCutSpeed,
      Effective(BaseEngraveAreaSpeed, sm, mf),
      Effective(BaseEngraveLineSpeed, sm, mf),
      CutSpeed(mf),
      sm, mf)
  }

  /** The speeds GetSpeedInfo reports are the ones the estimate divides by. */
  lemma {:induction false} SpeedInfoMatchesEstimate(c: PricingConfig, a: SvgAnalysis, materialID: nat, engraveTypeID: nat)
    ensures UnitEngraveMins(c, a, materialID, engraveTypeID) ==
      (if a.rasterAreaMM2 > 0.0 then a.rasterAreaMM2 / GetSpeedInfo(c, materialID, engraveTypeID).effectiveRasterSpeed else 0.0)
      + (if a.vectorLengthMM > 0.0 then a.vectorLengthMM / GetSpeedInfo(c, materialID, engraveTypeID).effectiveVectorSpeed else 0.0)
    ensures UnitCutMins(c, a, materialID) ==
      (if a.cutLengthMM > 0.0 then a.cutLengthMM / GetSpeedInfo(c, materialID, engraveTypeID).effectiveCutSpeed else 0.0)
  {
  }

  /** Setup time does not grow with the quantity; only the per-piece times do. */
  lemma {:induction false} SetupOnce(c: PricingConfig, a: SvgAnalysis, materialID: nat, engraveTypeID: nat, q1: int, q2: int)
    ensures SetupTimeMinutes + UnitEngraveMins(c, a, materialID, engraveTypeID) * q2 as real + UnitCutMins(c, a, materialID) * q2 as real
      - (SetupTimeMinutes + UnitEngraveMins(c, a, materialID, engraveTypeID) * q1 as real + UnitCutMins(c, a, materialID) * q1 as real)
      == (UnitEngraveMins(c, a, materialID, engraveTypeID) + UnitCutMins(c, a, materialID)) * (q2 - q1) as real
  {
  }
}
