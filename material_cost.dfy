// Material cost rows and the sheet-based cost per mm² of
// internal/models/material_cost.go.
module MaterialCosts {
  import opened Common

  /**
   * The cost of a material at a thickness (0 = any): a stored cost per mm²,
   * the waste share, and optionally the price and size of a whole sheet.
   */
  datatype MaterialCost = MaterialCost(
    materialID: nat,
    thickness: real,
    costPerMm2: real,
    wastePct: real,
    sheetCost: Option<real>,
    sheetWidthMm: Option<real>,
    sheetHeightMm: Option<real>,
    notes: Option<string>)

  /** Whether the sheet price and a non-degenerate sheet size are all known. */
  predicate HasSheet(mc: MaterialCost)
  {
    mc.sheetCost.Some? && mc.sheetWidthMm.Some? && mc.sheetHeightMm.Some?
    && mc.sheetWidthMm.value > 0.0 && mc.sheetHeightMm.value > 0.0
  }

  /**
   * CalculateCostPerMm2: the sheet price spread over the sheet's area, or the
   * stored cost per mm² when a sheet field is missing or a side is not
   * positive. The area it divides by is therefore never zero.
   */
  function CostPerMm2(mc: MaterialCost): (r: real)
    ensures !HasSheet(mc) ==> r == mc.costPerMm2
    ensures HasSheet(mc) ==> r * (mc.sheetWidthMm.value * mc.sheetHeightMm.value) == mc.sheetCost.value
  {
    if mc.sheetCost.None? || mc.sheetWidthMm.None? || mc.sheetHeightMm.None? then mc.costPerMm2
    else if mc.sheetWidthMm.value <= 0.0 || mc.sheetHeightMm.value <= 0.0 then mc.costPerMm2
    else
      var area := mc.sheetWidthMm.value * mc.sheetHeightMm.value;
      mc.sheetCost.value / area
  }
}
