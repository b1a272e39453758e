// The configuration records the pricing engine reads from its tables
// (internal/models: tech_rate.go, technology.go, material.go,
// engrave_type.go, system_config.go, tech_material_speed.go). Database ids
// are `nat`, decimals `real`, nullable columns `Option`. Timestamps, active
// flags the engine never reads, and GORM relations are not carried.
module PricingRecords {
  import opened Common

  /** Hourly rates of one technology and the per-minute costs derived from them. */
  datatype TechRate = TechRate(
    technologyID: nat,
    engraveRateHour: real,
    cutRateHour: real,
    designRateHour: real,
    overheadRateHour: real,
    setupFee: real,
    costPerMinEngrave: real,
    costPerMinCut: real,
    marginPercent: real)

  /**
   * A laser technology. `spotSizeMM` is read by the pricing configuration's
   * spot-size lookup although the table model does not declare it; the
   * record carries it so that lookup can be stated.
   */
  datatype Technology = Technology(
    id: nat,
    code: string,
    name: string,
    uvPremiumFactor: real,
    spotSizeMM: real)

  datatype Material = Material(id: nat, name: string, category: string, factor: real)

  datatype EngraveType = EngraveType(id: nat, name: string, factor: real, speedMultiplier: real)

  /** One key/value row of the system_config table; the value is always text. */
  datatype SystemConfig = SystemConfig(configKey: string, configValue: string, valueType: string, category: string)

  /** Speeds and compatibility of a technology on a material of a given thickness (0 = any). */
  datatype TechMaterialSpeed = TechMaterialSpeed(
    technologyID: nat,
    materialID: nat,
    thickness: real,
    cutSpeedMmMin: Option<real>,
    engraveSpeedMmMin: Option<real>,
    isCompatible: bool,
    notes: Option<string>)
}
