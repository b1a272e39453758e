// The pricing configuration as the calculator sees it once loaded
// (internal/services/pricing/config_loader.go): entity lookups with their
// defaults, system-config values parsed with a fallback, the volume-discount
// tier search, and the speed, material-cost and compatibility lookups that
// try the exact thickness first and then thickness 0.
module ConfigLoader {
  import opened Common
  import opened Externals
  import opened GoStrings
  import opened PricingRecords
  import opened VolumeDiscounts
  import opened MaterialCosts

  // System-config keys and the defaults the getters fall back to.
  const DefaultMarginKey := "default_margin_percent"
  const BaseEngraveAreaSpeedKey := "base_engrave_area_speed"
  const BaseEngraveLineSpeedKey := "base_engrave_line_speed"
  const BaseCutSpeedKey := "base_cut_speed"
  const SetupTimeMinutesKey := "setup_time_minutes"
  const ComplexityAutoApproveKey := "complexity_auto_approve"
  const ComplexityNeedsReviewKey := "complexity_needs_review"
  const QuoteValidityDaysKey := "quote_validity_days"
  const MinValueBaseKey := "min_value_base"
  const PricePerMM2Key := "price_per_mm2"
  const MinAreaMM2Key := "min_area_mm2"
  const DefaultWastePctKey := "default_waste_pct"

  /** The spot size assumed for a technology without a positive one (a CO2 laser's). */
  const DefaultSpotSize: real := 0.1

  /** The reason given for an incompatible pairing whose record has no notes. */
  const IncompatibleReason := "Combinación tecnología/material no compatible"

  /** TechMaterialSpeedResult: the speeds of the record a lookup settled on, if any. */
  datatype SpeedLookup = SpeedLookup(cutSpeedMmMin: Option<real>, engraveSpeedMmMin: Option<real>, found: bool)

  /** MaterialCostResult. */
  datatype MaterialCostLookup = MaterialCostLookup(costPerMm2: real, wastePct: real, found: bool)

  predicate SpeedMatches(s: TechMaterialSpeed, techID: nat, materialID: nat, thickness: real)
  {
    s.technologyID == techID && s.materialID == materialID && s.thickness == thickness
  }

  function SpeedFor(techID: nat, materialID: nat, thickness: real): TechMaterialSpeed -> bool
  {
    s => SpeedMatches(s, techID, materialID, thickness)
  }

  predicate CostMatches(mc: MaterialCost, materialID: nat, thickness: real)
  {
    mc.materialID == materialID && mc.thickness == thickness
  }

  function CostFor(materialID: nat, thickness: real): MaterialCost -> bool
  {
    mc => CostMatches(mc, materialID, thickness)
  }

  /**
   * The answer IsCompatible gives for the record the lookup settled on: no
   * record means compatible; an incompatible record gives its notes when
   * they are present and non-empty, otherwise the generic reason.
   */
  function Verdict(record: Option<TechMaterialSpeed>): (r: (bool, string))
    ensures r.0 <==> record.None? || record.value.isCompatible
    ensures r.0 ==> r.1 == ""
    ensures !r.0 ==> r.1 != ""
    ensures !r.0 && record.value.notes.Some? && record.value.notes.value != "" ==> r.1 == record.value.notes.value
    ensures !r.0 && !(record.value.notes.Some? && record.value.notes.value != "") ==> r.1 == IncompatibleReason
  {
    match record
    case None => (true, "")
    case Some(s) =>
      if !s.isCompatible then
        (false, if s.notes.Some? && s.notes.value != "" then s.notes.value else IncompatibleReason)
      else (true, "")
  }

  /** Everything the calculator needs from the database, as one immutable value. */
  datatype PricingConfig = PricingConfig(
    techRates: map<nat, TechRate>,
    technologies: map<nat, Technology>,
    materials: map<nat, Material>,
    engraveTypes: map<nat, EngraveType>,
    /** sorted by minimum quantity */
    volumeDiscounts: seq<VolumeDiscount>,
    systemConfigs: map<string, SystemConfig>,
    techMaterialSpeeds: seq<TechMaterialSpeed>,
    materialCosts: seq<MaterialCost>)
  {
    // ------------------------------------------------------------ entity lookups

    function TechRateOf(techID: nat): Option<TechRate>
    {
      if techID in techRates then Some(techRates[techID]) else None
    }

    function TechnologyOf(techID: nat): Option<Technology>
    {
      if techID in technologies then Some(technologies[techID]) else None
    }

    function MaterialOf(materialID: nat): Option<Material>
    {
      if materialID in materials then Some(materials[materialID]) else None
    }

    function EngraveTypeOf(engraveTypeID: nat): Option<EngraveType>
    {
      if engraveTypeID in engraveTypes then Some(engraveTypes[engraveTypeID]) else None
    }

    function CostPerMinEngrave(techID: nat): real
    {
      if techID in techRates then techRates[techID].costPerMinEngrave else 0.0
    }

    function CostPerMinCut(techID: nat): real
    {
      if techID in techRates then techRates[techID].costPerMinCut else 0.0
    }

    /** A technology without rates takes the system-wide default margin. */
    function MarginPercent(f: Foreign, techID: nat): real
    {
      if techID in techRates then techRates[techID].marginPercent
      else SystemConfigFloat(f, DefaultMarginKey, 0.40)
    }

    function SetupFee(techID: nat): real
    {
      if techID in techRates then techRates[techID].setupFee else 0.0
    }

    function MaterialFactor(materialID: nat): real
    {
      if materialID in materials then materials[materialID].factor else 1.0
    }

    function EngraveTypeFactor(engraveTypeID: nat): real
    {
      if engraveTypeID in engraveTypes then engraveTypes[engraveTypeID].factor else 1.0
    }

    function EngraveTypeSpeedMultiplier(engraveTypeID: nat): real
    {
      if engraveTypeID in engraveTypes then engraveTypes[engraveTypeID].speedMultiplier else 1.0
    }

    function UVPremiumFactor(techID: nat): real
    {
      if techID in technologies then technologies[techID].uvPremiumFactor else 0.0
    }

    /** GetSpotSize: the technology's spot size when it is positive, else the default. */
    function SpotSize(techID: nat): (r: real)
      ensures r > 0.0
      ensures techID in technologies && technologies[techID].spotSizeMM > 0.0 ==> r == technologies[techID].spotSizeMM
      ensures techID !in technologies || technologies[techID].spotSizeMM <= 0.0 ==> r == DefaultSpotSize
    {
      if techID in technologies && technologies[techID].spotSizeMM > 0.0 then technologies[techID].spotSizeMM
      else DefaultSpotSize
    }

    // ------------------------------------------------------------ system config

    function SystemConfigString(key: string): string
    {
      if key in systemConfigs then systemConfigs[key].configValue else ""
    }

    /** GetSystemConfigFloat: the parsed value, or the default when the key is missing or does not parse. */
    function SystemConfigFloat(f: Foreign, key: string, default: real): real
    {
      if key in systemConfigs then f.parseFloat(systemConfigs[key].configValue).GetOr(default)
      else default
    }

    /** GetSystemConfigInt: the same with strconv.Atoi. */
    function SystemConfigInt(key: string, default: int): int
    {
      if key in systemConfigs then Atoi(systemConfigs[key].configValue).GetOr(default)
      else default
    }

    function BaseEngraveAreaSpeed(f: Foreign): real { SystemConfigFloat(f, BaseEngraveAreaSpeedKey, 500.0) }
    function BaseEngraveLineSpeed(f: Foreign): real { SystemConfigFloat(f, BaseEngraveLineSpeedKey, 100.0) }
    function BaseCutSpeed(f: Foreign): real { SystemConfigFloat(f, BaseCutSpeedKey, 20.0) }
    function SetupTimeMinutes(f: Foreign): real { SystemConfigFloat(f, SetupTimeMinutesKey, 5.0) }
    function ComplexityAutoApprove(f: Foreign): real { SystemConfigFloat(f, ComplexityAutoApproveKey, 6.0) }
    function ComplexityNeedsReview(f: Foreign): real { SystemConfigFloat(f, ComplexityNeedsReviewKey, 12.0) }
    function QuoteValidityDays(): int { SystemConfigInt(QuoteValidityDaysKey, 7) }
    function MinValueBase(f: Foreign): real { SystemConfigFloat(f, MinValueBaseKey, 2575.0) }
    function PricePerMM2(f: Foreign): real { SystemConfigFloat(f, PricePerMM2Key, 0.515) }
    function MinAreaMM2(f: Foreign): real { SystemConfigFloat(f, MinAreaMM2Key, 100.0) }
    function DefaultWastePct(f: Foreign): real { SystemConfigFloat(f, DefaultWastePctKey, 0.15) }

    // ------------------------------------------------------------ thickness lookups

    /**
     * The speed record a lookup settles on: the first with the exact
     * thickness, else the first with thickness 0, else none.
     */
    function SpeedRecord(techID: nat, materialID: nat, thickness: real): (r: Option<TechMaterialSpeed>)
      ensures r.Some? ==> r.value in techMaterialSpeeds
      ensures (exists i :: 0 <= i < |techMaterialSpeeds| && SpeedMatches(techMaterialSpeeds[i], techID, materialID, thickness))
        ==> r.Some? && SpeedMatches(r.value, techID, materialID, thickness)
      ensures (forall i :: 0 <= i < |techMaterialSpeeds| ==> !SpeedMatches(techMaterialSpeeds[i], techID, materialID, thickness))
        ==> ((r.Some? <==> exists i :: 0 <= i < |techMaterialSpeeds| && SpeedMatches(techMaterialSpeeds[i], techID, materialID, 0.0))
          && (r.Some? ==> SpeedMatches(r.value, techID, materialID, 0.0)))
    {
      match FirstWhere(techMaterialSpeeds, SpeedFor(techID, materialID, thickness))
      case Some(i) => Some(techMaterialSpeeds[i])
      case None =>
        match FirstWhere(techMaterialSpeeds, SpeedFor(techID, materialID, 0.0))
        case Some(i) => Some(techMaterialSpeeds[i])
        case None => None
    }

    /** GetMaterialSpeed's answer: the settled record's speeds, or not found. */
    function MaterialSpeed(techID: nat, materialID: nat, thickness: real): SpeedLookup
    {
      match SpeedRecord(techID, materialID, thickness)
      case Some(s) => SpeedLookup(s.cutSpeedMmMin, s.engraveSpeedMmMin, true)
      case None => SpeedLookup(None, None, false)
    }

    /** IsCompatible's answer. */
    function Compatibility(techID: nat, materialID: nat, thickness: real): (bool, string)
    {
      Verdict(SpeedRecord(techID, materialID, thickness))
    }

    /** The material-cost row a lookup settles on, with the same fallback. */
    function CostRecord(materialID: nat, thickness: real): (r: Option<MaterialCost>)
      ensures r.Some? ==> r.value in materialCosts
      ensures (exists i :: 0 <= i < |materialCosts| && CostMatches(materialCosts[i], materialID, thickness))
        ==> r.Some? && CostMatches(r.value, materialID, thickness)
      ensures (forall i :: 0 <= i < |materialCosts| ==> !CostMatches(materialCosts[i], materialID, thickness))
        ==> ((r.Some? <==> exists i :: 0 <= i < |materialCosts| && CostMatches(materialCosts[i], materialID, 0.0))
          && (r.Some? ==> CostMatches(r.value, materialID, 0.0)))
    {
      match FirstWhere(materialCosts, CostFor(materialID, thickness))
      case Some(i) => Some(materialCosts[i])
      case None =>
        match FirstWhere(materialCosts, CostFor(materialID, 0.0))
        case Some(i) => Some(materialCosts[i])
        case None => None
    }

    /** GetMaterialCost's answer: the settled row's cost and waste, or zeros and not found. */
    function MaterialCostOf(materialID: nat, thickness: real): MaterialCostLookup
    {
      match CostRecord(materialID, thickness)
      case Some(mc) => MaterialCostLookup(mc.costPerMm2, mc.wastePct, true)
      case None => MaterialCostLookup(0.0, 0.0, false)
    }
  }

  // ------------------------------------------------------------ properties of the lookups

  /**
   * Missing entities fall back to neutral values: no per-minute cost and no
   * setup fee, the system default margin, factors and speed multiplier of 1,
   * no UV premium, and the default spot size. Present entities give their
   * own fields.
   */
  lemma {:induction false} EntityDefaults(c: PricingConfig, f: Foreign, techID: nat, materialID: nat, engraveTypeID: nat)
    ensures techID !in c.techRates ==>
      c.CostPerMinEngrave(techID) == 0.0 && c.CostPerMinCut(techID) == 0.0 && c.SetupFee(techID) == 0.0
      && c.MarginPercent(f, techID) == c.SystemConfigFloat(f, DefaultMarginKey, 0.40)
    ensures techID in c.techRates ==>
      c.CostPerMinEngrave(techID) == c.techRates[techID].costPerMinEngrave
      && c.CostPerMinCut(techID) == c.techRates[techID].costPerMinCut
      && c.SetupFee(techID) == c.techRates[techID].setupFee
      && c.MarginPercent(f, techID) == c.techRates[techID].marginPercent
    ensures materialID !in c.materials ==> c.MaterialFactor(materialID) == 1.0
    ensures materialID in c.materials ==> c.MaterialFactor(materialID) == c.materials[materialID].factor
    ensures engraveTypeID !in c.engraveTypes ==>
      c.EngraveTypeFactor(engraveTypeID) == 1.0 && c.EngraveTypeSpeedMultiplier(engraveTypeID) == 1.0
    ensures engraveTypeID in c.engraveTypes ==>
      c.EngraveTypeFactor(engraveTypeID) == c.engraveTypes[engraveTypeID].factor
      && c.EngraveTypeSpeedMultiplier(engraveTypeID) == c.engraveTypes[engraveTypeID].speedMultiplier
    ensures techID !in c.technologies ==> c.UVPremiumFactor(techID) == 0.0 && c.SpotSize(techID) == DefaultSpotSize
  {
  }

  /** A system-config value is used only when the key is present and parses; the default otherwise. */
  lemma {:induction false} SystemConfigFallback(c: PricingConfig, f: Foreign, key: string, default: real, intDefault: int)
    ensures key !in c.systemConfigs ==> c.SystemConfigFloat(f, key, default) == default && c.SystemConfigInt(key, intDefault) == intDefault
    ensures key in c.systemConfigs && f.parseFloat(c.systemConfigs[key].configValue).None? ==> c.SystemConfigFloat(f, key, default) == default
    ensures key in c.systemConfigs && f.parseFloat(c.systemConfigs[key].configValue).Some? ==>
      c.SystemConfigFloat(f, key, default) == f.parseFloat(c.systemConfigs[key].configValue).value
    ensures key in c.systemConfigs && Atoi(c.systemConfigs[key].configValue).None? ==> c.SystemConfigInt(key, intDefault) == intDefault
    ensures key in c.systemConfigs && Atoi(c.systemConfigs[key].configValue).Some? ==>
      c.SystemConfigInt(key, intDefault) == Atoi(c.systemConfigs[key].configValue).value
  {
  }

  /** With an empty system config every keyed getter gives its documented default. */
  lemma {:induction false} EmptySystemConfigDefaults(c: PricingConfig, f: Foreign, techID: nat)
    requires c.systemConfigs == map[]
    ensures c.BaseEngraveAreaSpeed(f) == 500.0 && c.BaseEngraveLineSpeed(f) == 100.0 && c.BaseCutSpeed(f) == 20.0
    ensures c.SetupTimeMinutes(f) == 5.0
    ensures c.ComplexityAutoApprove(f) == 6.0 && c.ComplexityNeedsReview(f) == 12.0
    ensures c.QuoteValidityDays() == 7
    ensures c.MinValueBase(f) == 2575.0 && c.PricePerMM2(f) == 0.515 && c.MinAreaMM2(f) == 100.0
    ensures c.DefaultWastePct(f) == 0.15
    ensures techID !in c.techRates ==> c.MarginPercent(f, techID) == 0.40
  {
  }

  /** A speed lookup reports not found exactly when neither an exact nor a thickness-0 record exists. */
  lemma {:induction false} MaterialSpeedFound(c: PricingConfig, techID: nat, materialID: nat, thickness: real)
    ensures c.MaterialSpeed(techID, materialID, thickness).found <==>
      (exists i :: 0 <= i < |c.techMaterialSpeeds| && SpeedMatches(c.techMaterialSpeeds[i], techID, materialID, thickness))
      || (exists i :: 0 <= i < |c.techMaterialSpeeds| && SpeedMatches(c.techMaterialSpeeds[i], techID, materialID, 0.0))
    ensures !c.MaterialSpeed(techID, materialID, thickness).found ==>
      c.MaterialSpeed(techID, materialID, thickness) == SpeedLookup(None, None, false)
  {
  }

  /** A cost lookup reports not found, with zero cost and waste, exactly when no usable row exists. */
  lemma {:induction false} MaterialCostFound(c: PricingConfig, materialID: nat, thickness: real)
    ensures c.MaterialCostOf(materialID, thickness).found <==>
      (exists i :: 0 <= i < |c.materialCosts| && CostMatches(c.materialCosts[i], materialID, thickness))
      || (exists i :: 0 <= i < |c.materialCosts| && CostMatches(c.materialCosts[i], materialID, 0.0))
    ensures !c.MaterialCostOf(materialID, thickness).found ==>
      c.MaterialCostOf(materialID, thickness) == MaterialCostLookup(0.0, 0.0, false)
  {
  }

  /**
   * A pairing with no record at the asked thickness and none at thickness 0
   * is compatible with no reason given, even when records at other
   * thicknesses exist.
   */
  lemma {:induction false} NoRecordCompatible(c: PricingConfig, techID: nat, materialID: nat, thickness: real)
    requires forall i :: 0 <= i < |c.techMaterialSpeeds| ==>
      !SpeedMatches(c.techMaterialSpeeds[i], techID, materialID, thickness)
      && !SpeedMatches(c.techMaterialSpeeds[i], techID, materialID, 0.0)
    ensures c.Compatibility(techID, materialID, thickness) == (true, "")
  {
  }

  // ------------------------------------------------------------ the search loops

  /** GetVolumeDiscount: every tier is examined and the last one that contains the quantity wins. */
  method GetVolumeDiscount(c: PricingConfig, quantity: int) returns (discount: real)
    ensures discount == LastTierDiscount(c.volumeDiscounts, quantity)
  {
    var tiers := c.volumeDiscounts;
    discount := 0.0;
    for i := 0 to |tiers|
      invariant discount == LastTierDiscount(tiers[..i], quantity)
    {
      var vd := tiers[i];
      if quantity >= vd.minQty && (vd.maxQty.None? || quantity <= vd.maxQty.value) {
        discount := vd.discountPct;
      }
      assert tiers[..i + 1][..i] == tiers[..i];
    }
    assert tiers[..|tiers|] == tiers;
  }

  /** GetMaterialSpeed: an exact-thickness pass, then, for a non-zero thickness, a thickness-0 pass. */
  method GetMaterialSpeed(c: PricingConfig, techID: nat, materialID: nat, thickness: real) returns (r: SpeedLookup)
    ensures r == c.MaterialSpeed(techID, materialID, thickness)
  {
    var speeds := c.techMaterialSpeeds;
    for i := 0 to |speeds|
      invariant forall j :: 0 <= j < i ==> !SpeedMatches(speeds[j], techID, materialID, thickness)
    {
      var s := speeds[i];
      if s.technologyID == techID && s.materialID == materialID && s.thickness == thickness {
        assert FirstWhere(speeds, SpeedFor(techID, materialID, thickness)) == Some(i);
        return SpeedLookup(s.cutSpeedMmMin, s.engraveSpeedMmMin, true);
      }
    }
    if thickness != 0.0 {
      for i := 0 to |speeds|
        invariant forall j :: 0 <= j < i ==> !SpeedMatches(speeds[j], techID, materialID, 0.0)
      {
        var s := speeds[i];
        if s.technologyID == techID && s.materialID == materialID && s.thickness == 0.0 {
          assert FirstWhere(speeds, SpeedFor(techID, materialID, 0.0)) == Some(i);
          return SpeedLookup(s.cutSpeedMmMin, s.engraveSpeedMmMin, true);
        }
      }
    }
    return SpeedLookup(None, None, false);
  }

  /** GetMaterialCost: the same two passes over the material-cost rows. */
  method GetMaterialCost(c: PricingConfig, materialID: nat, thickness: real) returns (r: MaterialCostLookup)
    ensures r == c.MaterialCostOf(materialID, thickness)
  {
    var costs := c.materialCosts;
    for i := 0 to |costs|
      invariant forall j :: 0 <= j < i ==> !CostMatches(costs[j], materialID, thickness)
    {
      var mc := costs[i];
      if mc.materialID == materialID && mc.thickness == thickness {
        assert FirstWhere(costs, CostFor(materialID, thickness)) == Some(i);
        return MaterialCostLookup(mc.costPerMm2, mc.wastePct, true);
      }
    }
    if thickness != 0.0 {
      for i := 0 to |costs|
        invariant forall j :: 0 <= j < i ==> !CostMatches(costs[j], materialID, 0.0)
      {
        var mc := costs[i];
        if mc.materialID == materialID && mc.thickness == 0.0 {
          assert FirstWhere(costs, CostFor(materialID, 0.0)) == Some(i);
          return MaterialCostLookup(mc.costPerMm2, mc.wastePct, true);
        }
      }
    }
    return MaterialCostLookup(0.0, 0.0, false);
  }

  /** IsCompatible: an exact-thickness pass, then a thickness-0 pass, each deciding on its first hit. */
  method IsCompatible(c: PricingConfig, techID: nat, materialID: nat, thickness: real) returns (compatible: bool, reason: string)
    ensures (compatible, reason) == c.Compatibility(techID, materialID, thickness)
  {
    var speeds := c.techMaterialSpeeds;
    for i := 0 to |speeds|
      invariant forall j :: 0 <= j < i ==> !SpeedMatches(speeds[j], techID, materialID, thickness)
    {
      var s := speeds[i];
      if s.technologyID == techID && s.materialID == materialID && s.thickness == thickness {
        assert FirstWhere(speeds, SpeedFor(techID, materialID, thickness)) == Some(i);
        compatible, reason := NoteVerdict(s);
        return;
      }
    }
    for i := 0 to |speeds|
      invariant forall j :: 0 <= j < i ==> !SpeedMatches(speeds[j], techID, materialID, 0.0)
    {
      var s := speeds[i];
      if s.technologyID == techID && s.materialID == materialID && s.thickness == 0.0 {
        assert FirstWhere(speeds, SpeedFor(techID, materialID, 0.0)) == Some(i);
        compatible, reason := NoteVerdict(s);
        return;
      }
    }
    return true, "";
  }

  /** The early return of either pass of IsCompatible. */
  method NoteVerdict(s: TechMaterialSpeed) returns (compatible: bool, reason: string)
    ensures (compatible, reason) == Verdict(Some(s))
  {
    if !s.isCompatible {
      reason := IncompatibleReason;
      if s.notes.Some? && s.notes.value != "" {
        reason := s.notes.value;
      }
      return false, reason;
    }
    return true, "";
  }
}
