// Quotes and their workflow predicates (internal/models/quote.go): the
// status values, expiry against a given instant, convertibility, the review
// flag, and the detailed JSON view with its optional keys.
module Quotes {
  import opened Common
  import opened Json

  /** An instant, in seconds. */
  type Instant = int

  // The status values a quote moves through.
  const StatusDraft := "draft"
  const StatusAutoApproved := "auto_approved"
  const StatusNeedsReview := "needs_review"
  const StatusRejected := "rejected"
  const StatusApproved := "approved"
  const StatusExpired := "expired"
  const StatusConverted := "converted"

  /**
   * A quotation. The related technology, material and engrave type appear
   * only through their names, and only when they were loaded with the quote.
   */
  datatype Quote = Quote(
    id: nat,
    userID: nat,
    createdAt: Instant,
    svgAnalysisID: nat,
    technologyID: nat,
    materialID: nat,
    engraveTypeID: nat,
    quantity: int,
    thickness: real,
    timeEngraveMins: real,
    timeCutMins: real,
    timeSetupMins: real,
    timeTotalMins: real,
    costEngrave: real,
    costCut: real,
    costSetup: real,
    costBase: real,
    costMaterial: real,
    costOverhead: real,
    factorMaterial: real,
    factorEngrave: real,
    factorUVPremium: real,
    factorMargin: real,
    discountVolumePct: real,
    priceHybridUnit: real,
    priceHybridTotal: real,
    priceValueUnit: real,
    priceValueTotal: real,
    priceFinal: real,
    status: string,
    reviewNotes: Option<string>,
    validUntil: Instant,
    technologyName: Option<string>,
    materialName: Option<string>,
    engraveTypeName: Option<string>)
  {
    /** IsExpired, with the clock reading passed in: strictly after the validity end. */
    predicate IsExpired(now: Instant)
    {
      now > validUntil
    }

    predicate CanBeConverted(now: Instant)
    {
      (status == StatusAutoApproved || status == StatusApproved) && !IsExpired(now)
    }

    predicate NeedsReview()
    {
      status == StatusNeedsReview
    }
  }

  /** Only an approved or auto-approved quote within its validity can become an order. */
  lemma {:induction false} ConvertibleStatuses(q: Quote, now: Instant)
    ensures q.CanBeConverted(now) <==> (q.status == StatusAutoApproved || q.status == StatusApproved) && now <= q.validUntil
    ensures q.status in {StatusDraft, StatusNeedsReview, StatusRejected, StatusExpired, StatusConverted} ==> !q.CanBeConverted(now)
    ensures q.NeedsReview() ==> !q.CanBeConverted(now)
  {
  }

  /** The keys ToDetailedJSON always writes. */
  const DetailedKeys: set<string> := {
    "id", "user_id", "created_at", "svg_analysis_id", "technology_id", "material_id",
    "engrave_type_id", "quantity", "thickness", "time_breakdown", "cost_breakdown",
    "factors", "pricing", "status", "valid_until"}

  /** The optional keys whose values a quote carries. */
  function OptionalKeys(q: Quote): set<string>
  {
    (if q.reviewNotes.Some? then {"review_notes"} else {})
    + (if q.technologyName.Some? then {"technology"} else {})
    + (if q.materialName.Some? then {"material"} else {})
    + (if q.engraveTypeName.Some? then {"engrave_type"} else {})
  }

  /** Adds `key` with a string value when the value is present. */
  function PutIfPresent(m: map<string, JsonValue>, key: string, v: Option<string>): (r: map<string, JsonValue>)
    ensures r.Keys == m.Keys + (if v.Some? then {key} else {})
    ensures v.Some? ==> r[key] == JString(v.value)
    ensures forall k :: k in m && k != key ==> r[k] == m[k]
  {
    if v.Some? then m[key := JString(v.value)] else m
  }

  function TimeBreakdown(q: Quote): JsonValue
  {
    JObject(map[
      "engrave_mins" := JNumber(q.timeEngraveMins),
      "cut_mins" := JNumber(q.timeCutMins),
      "setup_mins" := JNumber(q.timeSetupMins),
      "total_mins" := JNumber(q.timeTotalMins)])
  }

  function CostBreakdown(q: Quote): JsonValue
  {
    JObject(map[
      "engrave" := JNumber(q.costEngrave),
      "cut" := JNumber(q.costCut),
      "setup" := JNumber(q.costSetup),
      "base" := JNumber(q.costBase),
      "material" := JNumber(q.costMaterial),
      "overhead" := JNumber(q.costOverhead)])
  }

  function Factors(q: Quote): JsonValue
  {
    JObject(map[
      "material" := JNumber(q.factorMaterial),
      "engrave" := JNumber(q.factorEngrave),
      "uv_premium" := JNumber(q.factorUVPremium),
      "margin" := JNumber(q.factorMargin),
      "volume_discount" := JNumber(q.discountVolumePct)])
  }

  function Pricing(q: Quote): JsonValue
  {
    JObject(map[
      "hybrid_unit" := JNumber(q.priceHybridUnit),
      "hybrid_total" := JNumber(q.priceHybridTotal),
      "value_unit" := JNumber(q.priceValueUnit),
      "value_total" := JNumber(q.priceValueTotal),
      "final" := JNumber(q.priceFinal)])
  }

  /** The part of ToDetailedJSON every quote gets. */
  function FixedFields(q: Quote): (r: map<string, JsonValue>)
    ensures r.Keys == DetailedKeys
  {
    map[
      "id" := JInt(q.id),
      "user_id" := JInt(q.userID),
      "created_at" := JTime(q.createdAt),
      "svg_analysis_id" := JInt(q.svgAnalysisID),
      "technology_id" := JInt(q.technologyID),
      "material_id" := JInt(q.materialID),
      "engrave_type_id" := JInt(q.engraveTypeID),
      "quantity" := JInt(q.quantity),
      "thickness" := JNumber(q.thickness),
      "time_breakdown" := TimeBreakdown(q),
      "cost_breakdown" := CostBreakdown(q),
      "factors" := Factors(q),
      "pricing" := Pricing(q),
      "status" := JString(q.status),
      "valid_until" := JTime(q.validUntil)]
  }

  /**
   * ToDetailedJSON: the full quote as nested objects. The optional names
   * and review notes appear exactly when the quote carries them.
   */
  function DetailedJson(q: Quote): (r: map<string, JsonValue>)
    ensures r.Keys == DetailedKeys + OptionalKeys(q)
  {
    var m1 := PutIfPresent(FixedFields(q), "review_notes", q.reviewNotes);
    var m2 := PutIfPresent(m1, "technology", q.technologyName);
    var m3 := PutIfPresent(m2, "material", q.materialName);
    PutIfPresent(m3, "engrave_type", q.engraveTypeName)
  }

  /** Each optional key present in the detailed view holds the quote's own value. */
  lemma {:induction false} DetailedJsonOptionalValues(q: Quote)
    ensures q.reviewNotes.Some? ==> DetailedJson(q)["review_notes"] == JString(q.reviewNotes.value)
    ensures q.technologyName.Some? ==> DetailedJson(q)["technology"] == JString(q.technologyName.value)
    ensures q.materialName.Some? ==> DetailedJson(q)["material"] == JString(q.materialName.value)
    ensures q.engraveTypeName.Some? ==> DetailedJson(q)["engrave_type"] == JString(q.engraveTypeName.value)
  {
  }

  /** The status key carries the quote's status. */
  lemma {:induction false} DetailedJsonStatus(q: Quote)
    ensures DetailedJson(q)["status"] == JString(q.status)
  {
  }

  /** The keys of ToSummary. */
  const SummaryKeys: set<string> := {
    "id", "svg_analysis_id", "quantity", "price_hybrid_unit", "price_final",
    "status", "valid_until", "created_at"}

  /** ToSummary: the list view of a quote. */
  function SummaryJson(q: Quote): (r: map<string, JsonValue>)
    ensures r.Keys == SummaryKeys
  {
    map[
      "id" := JInt(q.id),
      "svg_analysis_id" := JInt(q.svgAnalysisID),
      "quantity" := JInt(q.quantity),
      "price_hybrid_unit" := JNumber(q.priceHybridUnit),
      "price_final" := JNumber(q.priceFinal),
      "status" := JString(q.status),
      "valid_until" := JTime(q.validUntil),
      "created_at" := JTime(q.createdAt)]
  }

  /**
   * The summary is a view of the fixed part of the detailed JSON: the
   * status and validity keys hold the same values in both.
   */
  lemma {:induction false} SummaryAgreesWithDetailed(q: Quote)
    ensures SummaryJson(q)["status"] == FixedFields(q)["status"]
    ensures SummaryJson(q)["valid_until"] == FixedFields(q)["valid_until"]
  {
  }

  /** The summary's two prices are the ones of the detailed pricing object. */
  lemma {:induction false} SummaryPricesAgree(q: Quote)
    ensures SummaryJson(q)["price_hybrid_unit"] == Pricing(q).fields["hybrid_unit"]
    ensures SummaryJson(q)["price_final"] == Pricing(q).fields["final"]
  {
  }
}
