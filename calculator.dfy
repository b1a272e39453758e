// The price of a quote (internal/services/pricing/calculator.go): machine
// time at the technology's rates, the hybrid price with margin, material,
// engrave and UV factors, the value price from the billed area, both totals
// with the volume discount and a one-time setup fee, each rounded to cents,
// and the approval status from the design's complexity; then the quote
// built from that result.
module PriceCalculator {
  import opened Common
  import opened Externals
  import opened ConfigLoader
  import opened TimeEstimator
  import opened SvgAnalyses
  import opened VolumeDiscounts
  import opened Quotes

  // ------------------------------------------------------------ rounding

  /**
   * math.Round: the nearest integer, halves rounded away from zero. The
   * result is within one half of `x`, and a tie goes to the integer of
   * larger magnitude.
   */
  function RoundHalfAway(x: real): (n: int)
    ensures x - 0.5 <= n as real <= x + 0.5
    ensures x >= 0.0 ==> x - 0.5 < n as real
    ensures x <= 0.0 ==> n as real < x + 0.5
    ensures x == x.Floor as real ==> n == x.Floor
  {
    if x >= 0.0 then (x + 0.5).Floor else -((0.5 - x).Floor)
  }

  /** Rounding never reverses the order of two numbers. */
  lemma {:induction false} RoundHalfAwayMonotone(x: real, y: real)
    requires x <= y
    ensures RoundHalfAway(x) <= RoundHalfAway(y)
  {
    if x >= 0.0 {
      assert (x + 0.5).Floor <= (y + 0.5).Floor;
    } else if y < 0.0 {
      assert (0.5 - y).Floor <= (0.5 - x).Floor;
    }
  }

  /** math.Round(x*100)/100: the amount rounded to cents. */
  function Round2(x: real): (r: real)
    ensures x - 0.005 <= r <= x + 0.005
    ensures x >= 0.0 ==> r >= 0.0
  {
    RoundHalfAway(x * 100.0) as real / 100.0
  }

  /** Rounding an amount already in cents changes nothing. */
  lemma {:induction false} Round2Idempotent(x: real)
    ensures Round2(Round2(x)) == Round2(x)
  {
    var n := RoundHalfAway(x * 100.0);
    assert Round2(x) * 100.0 == n as real;
    assert (n as real).Floor == n;
  }

  /** A larger amount never rounds to fewer cents. */
  lemma {:induction false} Round2Monotone(x: real, y: real)
    requires x <= y
    ensures Round2(x) <= Round2(y)
  {
    RoundHalfAwayMonotone(x * 100.0, y * 100.0);
  }

  /** math.Max, without the NaN cases reals do not have. */
  function Max(a: real, b: real): (r: real)
    ensures r >= a && r >= b
    ensures r == a || r == b
  {
    if a >= b then a else b
  }

  // ------------------------------------------------------------ classification

  // The notes the classification attaches to each status.
  const AutoApprovedNote := "Design is simple, auto-approved"
  const NeedsReviewNote := "Design complexity requires admin review"
  const RejectedNote := "Design is too complex for automated processing"

  /**
   * The recommended status of a design from its complexity factor and the two
   * configured thresholds, both inclusive: at most the first is approved
   * automatically, above it and at most the second goes to review, and
   * anything else is rejected.
   */
  function ComplexityStatus(complexity: real, autoApprove: real, needsReview: real): (r: (string, string))
    ensures r.0 == StatusAutoApproved <==> complexity <= autoApprove
    ensures r.0 == StatusNeedsReview <==> autoApprove < complexity <= needsReview
    ensures r.0 == StatusRejected <==> autoApprove < complexity && needsReview < complexity
    ensures r.0 == StatusAutoApproved ==> r.1 == AutoApprovedNote
    ensures r.0 == StatusNeedsReview ==> r.1 == NeedsReviewNote
    ensures r.0 == StatusRejected ==> r.1 == RejectedNote
  {
    if complexity <= autoApprove then (StatusAutoApproved, AutoApprovedNote)
    else if complexity <= needsReview then (StatusNeedsReview, NeedsReviewNote)
    else (StatusRejected, RejectedNote)
  }

  /** How far a status is from automatic approval. */
  function Severity(status: string): nat
  {
    if status == StatusAutoApproved then 0 else if status == StatusNeedsReview then 1 else 2
  }

  /** With the same thresholds, a simpler design never gets a worse status. */
  lemma {:induction false} SimplerIsNoWorse(c1: real, c2: real, autoApprove: real, needsReview: real)
    requires c1 <= c2
    ensures Severity(ComplexityStatus(c1, autoApprove, needsReview).0) <= Severity(ComplexityStatus(c2, autoApprove, needsReview).0)
  {
  }

  // ------------------------------------------------------------ the price

  /** PriceResult: the breakdown Calculate returns. */
  datatype PriceResult = PriceResult(
    timeEngraveMins: real,
    timeCutMins: real,
    timeSetupMins: real,
    timeTotalMins: real,
    costEngrave: real,
    costCut: real,
    costSetup: real,
    costBase: real,
    costMaterial: real,
    costOverhead: real,
    factorMaterial: real,
    factorEngrave: real,
    factorUVPremium: real,
    factorMargin: real,
    discountVolumePct: real,
    priceHybridUnit: real,
    priceHybridTotal: real,
    priceValueUnit: real,
    priceValueTotal: real,
    status: string,
    complexityNote: string)

  /** The machine-time cost of one piece: its engrave and cut minutes at the technology's rates. */
  function PieceCost(c: PricingConfig, a: SvgAnalysis, techID: nat, materialID: nat, engraveTypeID: nat): real
  {
    UnitEngraveMins(c, a, materialID, engraveTypeID) * c.CostPerMinEngrave(techID)
    + UnitCutMins(c, a, materialID) * c.CostPerMinCut(techID)
  }

  /**
   * The per-piece share of the time costs. The time costs grow with the
   * quantity, so for any non-zero quantity the share is the cost of one
   * piece; a zero quantity divides by zero, which the model takes as 0.
   */
  function PerUnitCostBase(c: PricingConfig, a: SvgAnalysis, techID: nat, materialID: nat, engraveTypeID: nat, quantity: int): real
  {
    if quantity == 0 then 0.0 else PieceCost(c, a, techID, materialID, engraveTypeID)
  }

  /** The hybrid price before rounding: the cost with margin, material, engrave and UV factors. */
  function HybridUnit(cost: real, margin: real, material: real, engrave: real, uv: real): real
  {
    cost * (1.0 + margin) * material * engrave * (1.0 + uv)
  }

  /** The value price before rounding: the area price with material, engrave and UV factors. */
  function ValueUnit(base: real, material: real, engrave: real, uv: real): real
  {
    base * material * engrave * (1.0 + uv)
  }

  /** A total: the unit price for every piece, less the volume discount, plus the setup fee once, in cents. */
  function Total(unit: real, quantity: int, discount: real, setup: real): real
  {
    Round2(Discounted(unit * quantity as real, discount) + setup)
  }

  /** An amount less a discount given as a fraction of it. */
  function Discounted(amount: real, discount: real): real
  {
    amount * (1.0 - discount)
  }

  /** The area the value price bills: the drawing's box, but never less than the configured minimum. */
  function BilledArea(f: Foreign, c: PricingConfig, a: SvgAnalysis): (area: real)
    ensures area >= c.MinAreaMM2(f)
    ensures a.TotalArea() >= c.MinAreaMM2(f) ==> area == a.TotalArea()
  {
    if a.TotalArea() < c.MinAreaMM2(f) then c.MinAreaMM2(f) else a.TotalArea()
  }

  /** The value price base: the billed area at the price per mm², but never below the minimum charge. */
  function ValueBase(f: Foreign, c: PricingConfig, a: SvgAnalysis): (base: real)
    ensures base >= c.MinValueBase(f)
    ensures base >= BilledArea(f, c, a) * c.PricePerMM2(f)
  {
    Max(c.MinValueBase(f), BilledArea(f, c, a) * c.PricePerMM2(f))
  }

  /** The extra cost of a material: the base cost times the material factor's excess over 1. */
  function Surcharge(costBase: real, materialFactor: real): real
  {
    costBase * (materialFactor - 1.0)
  }

  /** The cost of the order's engrave minutes. */
  function CostEngrave(c: PricingConfig, a: SvgAnalysis, techID: nat, materialID: nat, engraveTypeID: nat, quantity: int): real
  {
    OrderEngraveMins(c, a, materialID, engraveTypeID, quantity) * c.CostPerMinEngrave(techID)
  }

  /** The cost of the order's cut minutes. */
  function CostCut(c: PricingConfig, a: SvgAnalysis, techID: nat, materialID: nat, quantity: int): real
  {
    OrderCutMins(c, a, materialID, quantity) * c.CostPerMinCut(techID)
  }

  /** The cost before factors: the time costs and the setup fee. */
  function CostBase(c: PricingConfig, a: SvgAnalysis, techID: nat, materialID: nat, engraveTypeID: nat, quantity: int): real
  {
    CostEngrave(c, a, techID, materialID, engraveTypeID, quantity) + CostCut(c, a, techID, materialID, quantity) + c.SetupFee(techID)
  }

  /** The hybrid unit price in cents. */
  function HybridUnitPrice(f: Foreign, c: PricingConfig, a: SvgAnalysis, techID: nat, materialID: nat, engraveTypeID: nat, quantity: int): real
  {
    Round2(HybridUnit(PerUnitCostBase(c, a, techID, materialID, engraveTypeID, quantity),
      c.MarginPercent(f, techID), c.MaterialFactor(materialID), c.EngraveTypeFactor(engraveTypeID), c.UVPremiumFactor(techID)))
  }

  /** The value unit price in cents. */
  function ValueUnitPrice(f: Foreign, c: PricingConfig, a: SvgAnalysis, techID: nat, materialID: nat, engraveTypeID: nat): real
  {
    Round2(ValueUnit(ValueBase(f, c, a), c.MaterialFactor(materialID), c.EngraveTypeFactor(engraveTypeID), c.UVPremiumFactor(techID)))
  }

  /** The status and note the design's complexity earns under the configured thresholds. */
  function Recommendation(f: Foreign, c: PricingConfig, a: SvgAnalysis): (string, string)
  {
    ComplexityStatus(a.ComplexityFactor(), c.ComplexityAutoApprove(f), c.ComplexityNeedsReview(f))
  }

  /** The full result of Calculate for a loaded configuration. */
  function Price(f: Foreign, c: PricingConfig, a: SvgAnalysis, techID: nat, materialID: nat, engraveTypeID: nat, quantity: int): PriceResult
  {
    PriceResult(
      OrderEngraveMins(c, a, materialID, engraveTypeID, quantity),
      OrderCutMins(c, a, materialID, quantity),
      SetupTimeMinutes,
      SetupTimeMinutes + OrderEngraveMins(c, a, materialID, engraveTypeID, quantity) + OrderCutMins(c, a, materialID, quantity),
      CostEngrave(c, a, techID, materialID, engraveTypeID, quantity),
      CostCut(c, a, techID, materialID, quantity),
      c.SetupFee(techID),
      CostBase(c, a, techID, materialID, engraveTypeID, quantity),
      Surcharge(CostBase(c, a, techID, materialID, engraveTypeID, quantity), c.MaterialFactor(materialID)),
      0.0,
      c.MaterialFactor(materialID),
      c.EngraveTypeFactor(engraveTypeID),
      c.UVPremiumFactor(techID),
      c.MarginPercent(f, techID),
      LastTierDiscount(c.volumeDiscounts, quantity),
      HybridUnitPrice(f, c, a, techID, materialID, engraveTypeID, quantity),
      Total(HybridUnitPrice(f, c, a, techID, materialID, engraveTypeID, quantity), quantity,
        LastTierDiscount(c.volumeDiscounts, quantity), c.SetupFee(techID)),
      ValueUnitPrice(f, c, a, techID, materialID, engraveTypeID),
      Total(ValueUnitPrice(f, c, a, techID, materialID, engraveTypeID), quantity,
        LastTierDiscount(c.volumeDiscounts, quantity), c.SetupFee(techID)),
      Recommendation(f, c, a).0,
      Recommendation(f, c, a).1)
  }

  /** The time costs of `quantity` pieces, shared out again, are the cost of one piece. */
  lemma {:induction false} ShareOfTimeCosts(c: PricingConfig, a: SvgAnalysis, techID: nat, materialID: nat, engraveTypeID: nat, quantity: int)
    requires quantity != 0
    ensures FloatDiv(CostEngrave(c, a, techID, materialID, engraveTypeID, quantity) + CostCut(c, a, techID, materialID, quantity), quantity as real)
            == PieceCost(c, a, techID, materialID, engraveTypeID)
  {
    ShareOut(UnitEngraveMins(c, a, materialID, engraveTypeID), UnitCutMins(c, a, materialID),
             c.CostPerMinEngrave(techID), c.CostPerMinCut(techID), quantity as real,
             OrderEngraveMins(c, a, materialID, engraveTypeID, quantity), OrderCutMins(c, a, materialID, quantity));
  }

  /** Sharing out costs whose minutes were multiplied by the quantity. */
  lemma {:induction false} ShareOut(e: real, k: real, rateE: real, rateC: real, q: real, orderE: real, orderC: real)
    requires q != 0.0 && orderE == e * q && orderC == k * q
    ensures FloatDiv(orderE * rateE + orderC * rateC, q) == e * rateE + k * rateC
  {
    assert orderE * rateE + orderC * rateC == (e * rateE + k * rateC) * q;
  }

  /**
   * Calculate, for a configuration that either loaded or failed to: a load
   * error is passed through, otherwise the result is the price above.
   * The thickness is accepted and not used.
   */
  method Calculate(f: Foreign, loaded: Result<PricingConfig, string>, analysis: SvgAnalysis,
                   techID: nat, materialID: nat, engraveTypeID: nat, thickness: real, quantity: int)
    returns (r: Result<PriceResult, string>)
    ensures loaded.Err? ==> r == Err(loaded.error)
    ensures loaded.Ok? ==> r == Ok(Price(f, loaded.value, analysis, techID, materialID, engraveTypeID, quantity))
  {
    if loaded.Err? {
      return Err(loaded.error);
    }
    var config := loaded.value;

    var timeEst := Estimate(config, analysis, techID, materialID, engraveTypeID, quantity);

    var costPerMinEngrave := config.CostPerMinEngrave(techID);
    var costPerMinCut := config.CostPerMinCut(techID);
    var setupFee := config.SetupFee(techID);
    var marginPct := config.MarginPercent(f, techID);

    var factorMaterial := config.MaterialFactor(materialID);
    var factorEngrave := config.EngraveTypeFactor(engraveTypeID);
    var factorUVPremium := config.UVPremiumFactor(techID);
    var discount := GetVolumeDiscount(config, quantity);

    var costEngrave, costCut, costSetup, costBase, costMaterial :=
      CostPart(config, analysis, techID, materialID, engraveTypeID, quantity, timeEst);

    var hybridUnit := HybridPart(config, analysis, techID, materialID, engraveTypeID, quantity,
                                 costEngrave, costCut, marginPct, factorMaterial, factorEngrave, factorUVPremium);
    var priceHybridUnit := Round2(hybridUnit);
    var priceHybridTotal := TotalPart(priceHybridUnit, quantity, discount, costSetup);

    var valueUnit := ValuePart(f, config, analysis, factorMaterial, factorEngrave, factorUVPremium);
    var priceValueUnit := Round2(valueUnit);
    var priceValueTotal := TotalPart(priceValueUnit, quantity, discount, costSetup);

    var complexityFactor := analysis.ComplexityFactor();
    var complexityAutoApprove := config.ComplexityAutoApprove(f);
    var complexityNeedsReview := config.ComplexityNeedsReview(f);
    var status, note;
    if complexityFactor <= complexityAutoApprove {
      status, note := StatusAutoApproved, AutoApprovedNote;
    } else if complexityFactor <= complexityNeedsReview {
      status, note := StatusNeedsReview, NeedsReviewNote;
    } else {
      status, note := StatusRejected, RejectedNote;
    }

    assert priceHybridUnit == HybridUnitPrice(f, config, analysis, techID, materialID, engraveTypeID, quantity);
    assert priceValueUnit == ValueUnitPrice(f, config, analysis, techID, materialID, engraveTypeID);
    assert (status, note) == Recommendation(f, config, analysis);
    r := Ok(PriceResult(
      timeEst.engraveMins, timeEst.cutMins, timeEst.setupMins, timeEst.totalMins,
      costEngrave, costCut, costSetup, costBase, costMaterial, 0.0,
      factorMaterial, factorEngrave, factorUVPremium, marginPct, discount,
      priceHybridUnit, priceHybridTotal, priceValueUnit, priceValueTotal,
      status, note));
  }

  /** The cost lines of Calculate: time costs at the technology's rates, the setup fee, and the material surcharge. */
  method CostPart(c: PricingConfig, a: SvgAnalysis, techID: nat, materialID: nat, engraveTypeID: nat, quantity: int,
                  timeEst: TimeEstimate)
    returns (costEngrave: real, costCut: real, costSetup: real, costBase: real, costMaterial: real)
    requires timeEst.engraveMins == OrderEngraveMins(c, a, materialID, engraveTypeID, quantity)
    requires timeEst.cutMins == OrderCutMins(c, a, materialID, quantity)
    ensures costEngrave == CostEngrave(c, a, techID, materialID, engraveTypeID, quantity)
    ensures costCut == CostCut(c, a, techID, materialID, quantity)
    ensures costSetup == c.SetupFee(techID)
    ensures costBase == CostBase(c, a, techID, materialID, engraveTypeID, quantity)
    ensures costMaterial == Surcharge(costBase, c.MaterialFactor(materialID))
  {
    costEngrave := timeEst.engraveMins * c.CostPerMinEngrave(techID);
    costCut := timeEst.cutMins * c.CostPerMinCut(techID);
    costSetup := c.SetupFee(techID);
    costBase := costEngrave + costCut + costSetup;
    costMaterial := costBase * (c.MaterialFactor(materialID) - 1.0);
  }

  /**
   * The hybrid part of Calculate: the time costs divided by the quantity
   * (taken whole for a single piece) with the factors applied one by one.
   */
  method HybridPart(c: PricingConfig, a: SvgAnalysis, techID: nat, materialID: nat, engraveTypeID: nat, quantity: int,
                    costEngrave: real, costCut: real, margin: real, material: real, engrave: real, uv: real)
    returns (hybridUnit: real)
    requires costEngrave == CostEngrave(c, a, techID, materialID, engraveTypeID, quantity)
    requires costCut == CostCut(c, a, techID, materialID, quantity)
    ensures hybridUnit == HybridUnit(PerUnitCostBase(c, a, techID, materialID, engraveTypeID, quantity), margin, material, engrave, uv)
  {
    var perUnitCostBase := FloatDiv(costEngrave + costCut, quantity as real);
    if quantity == 1 {
      perUnitCostBase := costEngrave + costCut;
    }
    if quantity != 0 {
      ShareOfTimeCosts(c, a, techID, materialID, engraveTypeID, quantity);
    }
    assert perUnitCostBase == PerUnitCostBase(c, a, techID, materialID, engraveTypeID, quantity);
    hybridUnit := perUnitCostBase;
    hybridUnit := hybridUnit * (1.0 + margin);
    hybridUnit := hybridUnit * material;
    hybridUnit := hybridUnit * engrave;
    hybridUnit := hybridUnit * (1.0 + uv);
    assert hybridUnit == HybridUnit(perUnitCostBase, margin, material, engrave, uv);
  }

  /** A total as Calculate forms it: the unit price times the quantity, discounted, plus the setup fee, rounded. */
  method TotalPart(unit: real, quantity: int, discount: real, setup: real) returns (total: real)
    ensures total == Total(unit, quantity, discount, setup)
  {
    var t := unit * quantity as real;
    t := t * (1.0 - discount);
    t := t + setup;
    assert t == Discounted(unit * quantity as real, discount) + setup;
    total := Round2(t);
  }

  /** The value part of Calculate: the billed area, the minimum charge, and the factors. */
  method ValuePart(f: Foreign, c: PricingConfig, a: SvgAnalysis, material: real, engrave: real, uv: real)
    returns (valueUnit: real)
    ensures valueUnit == ValueUnit(ValueBase(f, c, a), material, engrave, uv)
  {
    var totalArea := a.TotalArea();
    var minAreaMM2 := c.MinAreaMM2(f);
    if totalArea < minAreaMM2 {
      totalArea := minAreaMM2;
    }
    var valueBase := Max(c.MinValueBase(f), totalArea * c.PricePerMM2(f));
    valueUnit := valueBase;
    valueUnit := valueUnit * material;
    valueUnit := valueUnit * engrave;
    valueUnit := valueUnit * (1.0 + uv);
  }

  // ------------------------------------------------------------ properties of the price

  /** The breakdown adds up: the time total, the base cost and the material surcharge. */
  lemma {:induction false} BreakdownAddsUp(f: Foreign, c: PricingConfig, a: SvgAnalysis, techID: nat, materialID: nat, engraveTypeID: nat, quantity: int, p: PriceResult)
    requires p == Price(f, c, a, techID, materialID, engraveTypeID, quantity)
    ensures p.timeTotalMins == p.timeSetupMins + p.timeEngraveMins + p.timeCutMins
    ensures p.costBase == p.costEngrave + p.costCut + p.costSetup
    ensures p.costMaterial == Surcharge(p.costBase, p.factorMaterial)
    ensures p.costOverhead == 0.0 && p.costSetup == c.SetupFee(techID)
    ensures p.priceHybridTotal == Total(p.priceHybridUnit, quantity, p.discountVolumePct, p.costSetup)
    ensures p.priceValueTotal == Total(p.priceValueUnit, quantity, p.discountVolumePct, p.costSetup)
  {
  }

  /** The unit prices do not depend on how many pieces are ordered. */
  lemma {:induction false} UnitPriceIndependentOfQuantity(f: Foreign, c: PricingConfig, a: SvgAnalysis, techID: nat, materialID: nat, engraveTypeID: nat, q1: int, q2: int)
    requires q1 != 0 && q2 != 0
    ensures Price(f, c, a, techID, materialID, engraveTypeID, q1).priceHybridUnit == Price(f, c, a, techID, materialID, engraveTypeID, q2).priceHybridUnit
    ensures Price(f, c, a, techID, materialID, engraveTypeID, q1).priceValueUnit == Price(f, c, a, techID, materialID, engraveTypeID, q2).priceValueUnit
  {
  }

  /** The hybrid unit price is within half a cent of the exact factored cost of one piece. */
  lemma {:induction false} UnitPriceNearExact(f: Foreign, c: PricingConfig, a: SvgAnalysis, techID: nat, materialID: nat, engraveTypeID: nat, quantity: int)
    requires quantity != 0
    ensures HybridUnit(PieceCost(c, a, techID, materialID, engraveTypeID), c.MarginPercent(f, techID),
              c.MaterialFactor(materialID), c.EngraveTypeFactor(engraveTypeID), c.UVPremiumFactor(techID)) - 0.005
            <= Price(f, c, a, techID, materialID, engraveTypeID, quantity).priceHybridUnit
    ensures Price(f, c, a, techID, materialID, engraveTypeID, quantity).priceHybridUnit
            <= HybridUnit(PieceCost(c, a, techID, materialID, engraveTypeID), c.MarginPercent(f, techID),
              c.MaterialFactor(materialID), c.EngraveTypeFactor(engraveTypeID), c.UVPremiumFactor(techID)) + 0.005
  {
  }

  /** A discount between 0 and 1 leaves a share no larger than the whole of a non-negative amount. */
  lemma ScaledDown(x: real, d: real)
    requires x >= 0.0 && 0.0 <= d <= 1.0
    ensures 0.0 <= Discounted(x, d) <= Discounted(x, 0.0)
  {
    assert x * (1.0 - d) == x - x * d;
    assert x * d >= 0.0;
  }

  /**
   * The volume discount applies to the pieces and not to the setup fee: with
   * a discount between 0 and 1 and a non-negative unit price, a total is no
   * more than the undiscounted one and no less than the setup fee alone.
   */
  lemma {:induction false} DiscountSparesSetup(unit: real, quantity: int, discount: real, setup: real)
    requires 0.0 <= discount <= 1.0 && unit >= 0.0 && quantity >= 0
    ensures Total(unit, quantity, discount, setup) <= Total(unit, quantity, 0.0, setup)
    ensures Round2(setup) <= Total(unit, quantity, discount, setup)
  {
    var pieces := unit * quantity as real;
    ScaledDown(pieces, discount);
    Round2Monotone(Discounted(pieces, discount) + setup, Discounted(pieces, 0.0) + setup);
    Round2Monotone(setup, Discounted(pieces, discount) + setup);
  }

  /** Scaling by a non-negative factor keeps the order of two amounts. */
  lemma ScaleMonotone(lo: real, hi: real, k: real)
    requires lo <= hi && k >= 0.0
    ensures lo * k <= hi * k
  {
    assert hi * k - lo * k == (hi - lo) * k;
  }

  /** With non-negative factors a larger base gives a larger value price. */
  lemma ValueUnitMonotone(lo: real, hi: real, m: real, e: real, u: real)
    requires lo <= hi && m >= 0.0 && e >= 0.0 && u >= -1.0
    ensures ValueUnit(lo, m, e, u) <= ValueUnit(hi, m, e, u)
  {
    ScaleMonotone(lo, hi, m);
    ScaleMonotone(lo * m, hi * m, e);
    ScaleMonotone(lo * m * e, hi * m * e, 1.0 + u);
  }

  /**
   * The value price never drops below the minimum charge with its factors:
   * with non-negative factors the unit value price is at least the rounded
   * minimum charge times those factors.
   */
  lemma {:induction false} ValueAtLeastMinimum(f: Foreign, c: PricingConfig, a: SvgAnalysis, techID: nat, materialID: nat, engraveTypeID: nat)
    requires c.MaterialFactor(materialID) >= 0.0 && c.EngraveTypeFactor(engraveTypeID) >= 0.0 && c.UVPremiumFactor(techID) >= -1.0
    ensures ValueUnitPrice(f, c, a, techID, materialID, engraveTypeID)
      >= Round2(ValueUnit(c.MinValueBase(f), c.MaterialFactor(materialID), c.EngraveTypeFactor(engraveTypeID), c.UVPremiumFactor(techID)))
  {
    var m, e, u := c.MaterialFactor(materialID), c.EngraveTypeFactor(engraveTypeID), c.UVPremiumFactor(techID);
    var lo, hi := c.MinValueBase(f), ValueBase(f, c, a);
    ValueUnitMonotone(lo, hi, m, e, u);
    Round2Monotone(ValueUnit(lo, m, e, u), ValueUnit(hi, m, e, u));
  }

  /** The status follows the design's complexity and the configured thresholds. */
  lemma {:induction false} StatusFromComplexity(f: Foreign, c: PricingConfig, a: SvgAnalysis, techID: nat, materialID: nat, engraveTypeID: nat, quantity: int)
    ensures Price(f, c, a, techID, materialID, engraveTypeID, quantity).status == StatusAutoApproved
            <==> a.ComplexityFactor() <= c.ComplexityAutoApprove(f)
    ensures Price(f, c, a, techID, materialID, engraveTypeID, quantity).status == StatusRejected
            <==> c.ComplexityAutoApprove(f) < a.ComplexityFactor() && c.ComplexityNeedsReview(f) < a.ComplexityFactor()
  {
  }

  // ------------------------------------------------------------ the quote

  /** One day, in seconds. */
  const SecondsPerDay: int := 86400

  /** The validity of a new quote in days: the configured one, or 7 when the configuration failed to load. */
  function ValidityDays(loaded: Result<PricingConfig, string>): (days: int)
    ensures loaded.Err? ==> days == 7
    ensures loaded.Ok? ==> days == loaded.value.QuoteValidityDays()
  {
    if loaded.Ok? then loaded.value.QuoteValidityDays() else 7
  }

  /** Every time, cost, factor and price of the result reappears unchanged in the quote. */
  predicate CopiesBreakdown(p: PriceResult, q: Quote)
  {
    q.timeEngraveMins == p.timeEngraveMins && q.timeCutMins == p.timeCutMins
    && q.timeSetupMins == p.timeSetupMins && q.timeTotalMins == p.timeTotalMins
    && q.costEngrave == p.costEngrave && q.costCut == p.costCut && q.costSetup == p.costSetup
    && q.costBase == p.costBase && q.costMaterial == p.costMaterial && q.costOverhead == p.costOverhead
    && q.factorMaterial == p.factorMaterial && q.factorEngrave == p.factorEngrave
    && q.factorUVPremium == p.factorUVPremium && q.factorMargin == p.factorMargin
    && q.discountVolumePct == p.discountVolumePct
    && q.priceHybridUnit == p.priceHybridUnit && q.priceHybridTotal == p.priceHybridTotal
    && q.priceValueUnit == p.priceValueUnit && q.priceValueTotal == p.priceValueTotal
  }

  /**
   * ToQuoteModel: the quote a price result becomes at instant `now`. It is
   * valid for the configured number of days, its final price is the hybrid
   * total, and the fields the database assigns (id, creation time) are 0.
   */
  function ToQuoteModel(p: PriceResult, userID: nat, analysisID: nat, techID: nat, materialID: nat, engraveTypeID: nat,
                        quantity: int, thickness: real, now: Instant, loaded: Result<PricingConfig, string>): (q: Quote)
    ensures q.validUntil == now + ValidityDays(loaded) * SecondsPerDay
    ensures q.priceFinal == q.priceHybridTotal == p.priceHybridTotal
    ensures CopiesBreakdown(p, q)
    ensures q.status == p.status
    ensures q.reviewNotes.None? && q.technologyName.None? && q.materialName.None? && q.engraveTypeName.None?
  {
    Quote(
      0, userID, 0, analysisID, techID, materialID, engraveTypeID, quantity, thickness,
      p.timeEngraveMins, p.timeCutMins, p.timeSetupMins, p.timeTotalMins,
      p.costEngrave, p.costCut, p.costSetup, p.costBase, p.costMaterial, p.costOverhead,
      p.factorMaterial, p.factorEngrave, p.factorUVPremium, p.factorMargin, p.discountVolumePct,
      p.priceHybridUnit, p.priceHybridTotal, p.priceValueUnit, p.priceValueTotal, p.priceHybridTotal,
      p.status, None, now + ValidityDays(loaded) * SecondsPerDay, None, None, None)
  }

  /**
   * What the status recommended by the calculator means for the new quote:
   * an auto-approved one can become an order at any instant from its
   * creation to the end of its validity (and not after), one sent to review
   * needs review, and a rejected one can never become an order.
   */
  lemma {:induction false} QuoteWorkflow(p: PriceResult, userID: nat, analysisID: nat, techID: nat, materialID: nat, engraveTypeID: nat,
                                         quantity: int, thickness: real, now: Instant, loaded: Result<PricingConfig, string>, later: Instant)
    ensures var q := ToQuoteModel(p, userID, analysisID, techID, materialID, engraveTypeID, quantity, thickness, now, loaded);
      (p.status == StatusAutoApproved ==> (q.CanBeConverted(later) <==> later <= now + ValidityDays(loaded) * SecondsPerDay))
      && (p.status == StatusNeedsReview ==> q.NeedsReview() && !q.CanBeConverted(later))
      && (p.status == StatusRejected ==> !q.CanBeConverted(later))
  {
  }

  /** A quote whose validity is not negative has not expired at its own creation. */
  lemma {:induction false} FreshQuoteNotExpired(p: PriceResult, userID: nat, analysisID: nat, techID: nat, materialID: nat, engraveTypeID: nat,
                                                quantity: int, thickness: real, now: Instant, loaded: Result<PricingConfig, string>)
    requires ValidityDays(loaded) >= 0
    ensures !ToQuoteModel(p, userID, analysisID, techID, materialID, engraveTypeID, quantity, thickness, now, loaded).IsExpired(now)
  {
  }
}
