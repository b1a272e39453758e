# FabricaLaser quoting engine in Dafny

FabricaLaser prices laser-cutting and engraving jobs from an uploaded SVG
design. This project models its quoting chain and proves properties of it:

- **SVG engine.** The parser reads the root element's `width`, `height` and
  `viewBox` into millimetres and extracts the drawable elements. The
  classifier gives each element one operation from its colours: red stroke
  cuts, blue stroke engraves a vector line, black fill engraves a raster.
  The geometry calculator measures each element's length, area and bounds,
  turning path data into points with Bézier subdivision. The analyzer
  combines these into counts, totals, global bounds and warnings.
- **Pricing.** The configuration loader looks up rates, factors, volume
  discounts, system settings with their fallbacks, and the two-pass
  thickness lookups. The time estimator turns the analysis into engrave,
  cut and setup minutes. The calculator produces the hybrid and the
  value-based prices, the volume discount, the rounding to cents and the
  approval status, and copies the result into a quote.
- **Models.** The analysis record (total area, complexity factor and its
  Newton square root), volume discount tiers, material cost per mm², the
  user's quote quota, and the quote's status predicates and JSON views.
- **Identity.** Costa Rican *cédula* cleaning and validation. The cédula
  service's name formatting, registry result and stored metadata. The
  auth service's metadata read-back, name split and registration gate. The
  `Bearer` header parsing and the e-mail check of the auth handler.
- **Configuration handler.** The grouping of compatible speed records by
  technology, with deduplicated thicknesses and capability flags.

The modules follow the Go packages, one module per core file:

- `SvgParser`, `Classifier`, `Geometry` and `Analyzer`;
- `ConfigLoader`, `TimeEstimator` and `PriceCalculator`;
- `SvgAnalyses`, `VolumeDiscounts`, `MaterialCosts`, `Users` and `Quotes`;
- `CedulaUtils`, `Jwt`, `CedulaService` and `AuthService`;
- `AuthHandler` and `ConfigHandler`.

Shared pieces:

- `Common` holds Option/Result and lookups.
- `GoStrings` defines Go's `strings` functions as Go does: `TrimSpace`,
  `Fields`, `ToLower`/`ToUpper`, `Index`, `SplitN` and `EqualFold`.
- `Json` models `map[string]interface{}` results.
- `PricingRecords` holds the configuration tables.
- `Externals` holds the library calls taken as given.

The code's own form is kept:

- Loops that accumulate become methods with loop invariants. Each is proved
  equal to a specification function, and the properties are proved about
  that function.
- Expression code becomes functions and lemmas.

Floating-point values are modelled as `real`.

Some library calls are not modelled. Their results become function values
in a `Foreign` record, and every property holds for any such values, except
where a lemma asks for the predicate `Sane` (a square root that is never
negative and a positive pi). The calls are:

- `math.Sqrt` and `math.Pi`;
- `strconv.ParseFloat`;
- the numeric and path tokenizers;
- the XML unmarshalling;
- the element-tag regular expression.

Three behaviours of the code are worth stating plainly:

- The classifier gives each element a single category in priority order
  (red cut, then blue vector, then black raster), and the analyzer reads
  the three flags derived from that one category
  (`internal/services/svgengine/classifier.go`).
- The time estimator uses its own hard-coded base speeds: 500 mm²/min
  raster, 100 mm/min vector, 20 mm/min cut and 5 setup minutes
  (`internal/services/pricing/time_estimator.go`). Per-material speed
  records are not consulted there.
- `ToQuoteModel` sets the final price to the hybrid total
  (`internal/services/pricing/calculator.go`).

## Model

| member | source | states |
|---|---|---|
| SvgParser.SplitViewBox | internal/services/svgengine/parser.go:118 | the viewBox string splits into at least one part, none containing a comma or white space |
| SvgParser.SplitViewBoxOfJoin | internal/services/svgengine/parser.go:118 | splitting parts joined by any run of separators gives back exactly those parts |
| SvgParser.ViewBoxOfParts | internal/services/svgengine/parser.go:119-142 | the viewBox is valid exactly when there are four parts and each parses as a float; its fields are then those four numbers in order |
| SvgParser.ParseViewBox | internal/services/svgengine/parser.go:111-143 | an empty attribute gives the zero, invalid viewBox; otherwise the parts are read as above |
| SvgParser.ViewBoxOfFourNumbers | internal/services/svgengine/parser.go:111-143 | four numbers joined by separators parse as a valid viewBox whose width is the third number |
| SvgParser.UnitOf | internal/services/svgengine/parser.go:154-168 | each unit suffix maps to its unit (no suffix and "mm" to millimetres, then cm, in, pt, px, %); any other suffix maps to none |
| SvgParser.ParseLength | internal/services/svgengine/parser.go:146-163 | an empty value or one not starting with a number gives the fallback |
| SvgParser.ParseLengthOfNumberAndUnit | internal/services/svgengine/parser.go:146-186 | a number followed by a suffix converts through that unit to millimetres; an unknown unit or an unparsable number gives the fallback |
| SvgParser.ElementsOfType | internal/services/svgengine/parser.go:202-220 | every extracted element has the searched type, a non-empty attribute map and its `id` attribute as id |
| SvgParser.ExtractOfType | internal/services/svgengine/parser.go:202-220 | the inner loop over tag matches yields exactly the elements of that type |
| SvgParser.ExtractElements | internal/services/svgengine/parser.go:190-227 | the nested loops yield the elements of every supported type, type by type, in the fixed type order |
| SvgParser.ExtractedGroupedByType | internal/services/svgengine/parser.go:194-221 | the extracted elements are grouped by type in the order of the type list |
| SvgParser.DocumentWarningsContents | internal/services/svgengine/parser.go:89-105 | the width, height and no-elements warnings appear exactly when their conditions hold; no-elements comes last; no colour warning is raised here |
| SvgParser.ParseDocumentDimensions | internal/services/svgengine/parser.go:78-97 | width and height are never zero; for each of them a parsed length wins, then the valid viewBox's non-zero size, then the 100 mm default |
| SvgParser.ParseDocumentWarnings | internal/services/svgengine/parser.go:89-105 | a warning is present exactly when its dimension was defaulted or the document has no elements |
| SvgParser.ParsedWarningsStandard | internal/services/svgengine/parser.go:89-105 | the parser never emits the missing-standard-colours warning |
| SvgParser.Parse | internal/services/svgengine/parser.go:62-108 | an XML error becomes "invalid SVG XML: " plus the error; otherwise the step-by-step fill equals the document's parse |
| SvgParser.GetScaleFactor | internal/services/svgengine/parser.go:247-254 | without a valid, non-degenerate viewBox the scale is (1, 1); otherwise scale times viewBox size is the physical size |
| Geometry.NewCalculator | internal/services/svgengine/geometry.go:38-44 | the calculator keeps the given scales and the fixed subdivision precision |
| Geometry.Midpoint | internal/services/svgengine/geometry.go:512-514 | the midpoint is equally far from both ends on each axis |
| Geometry.ExpandBounds | internal/services/svgengine/geometry.go:528-535 | the result contains the point and the old box, stays ordered, and is unchanged when the point was inside |
| Geometry.SubdivideCubic | internal/services/svgengine/geometry.go:429-450 | the subdivision starts at the first control point and ends at the last |
| Geometry.FlatCurveIsChord | internal/services/svgengine/geometry.go:431-436 | a curve whose inner control points lie within tolerance of the chord is just its two ends |
| Geometry.CubicBezier | internal/services/svgengine/geometry.go:424-426 | the flattened cubic runs from its start point to its end point |
| Geometry.TwoThirdsToward | internal/services/svgengine/geometry.go:453-458 | the quadratic-to-cubic control point lies two thirds of the way from the end point to the control point |
| Geometry.QuadraticBezier | internal/services/svgengine/geometry.go:453-458 | the flattened quadratic runs from its start point to its end point |
| Geometry.Reflect | internal/services/svgengine/geometry.go:343-395 | the smooth-curve control point is the mirror image of the previous control point through the current point |
| Geometry.ClosePath | internal/services/svgengine/geometry.go:410-415 | Z returns to the subpath start and appends it only when there are points and the current point is farther away than epsilon |
| Geometry.PathToPoints | internal/services/svgengine/geometry.go:254-421 | the command loop computes the path's point list |
| Geometry.RunCommand | internal/services/svgengine/geometry.go:265-418 | one command's state update (points, current, start, last control, last command) |
| Geometry.RunSegments | internal/services/svgengine/geometry.go:275-409 | the loop over a command's argument groups (implicit repetition) |
| Geometry.DrawSegment | internal/services/svgengine/geometry.go:275-409 | one argument group of M, L, H, V, C, S, Q or T updates the state |
| Geometry.AxisLinesKeepOtherCoordinate | internal/services/svgengine/geometry.go:304-323 | H keeps y and V keeps x; the other coordinate is set absolutely or relatively and scaled, and the point is appended |
| Geometry.SegmentEndsAtCurrent | internal/services/svgengine/geometry.go:276-408 | every drawing segment extends the point list and ends it at the new current point |
| Geometry.CubicSegmentEnds | internal/services/svgengine/geometry.go:324-341 | a C segment extends the points and ends at the new current point |
| Geometry.SmoothCubicSegmentEnds | internal/services/svgengine/geometry.go:343-362 | an S segment extends the points and ends at the new current point |
| Geometry.QuadraticSegmentEnds | internal/services/svgengine/geometry.go:364-378 | a Q segment extends the points and ends at the new current point |
| Geometry.SmoothQuadraticSegmentEnds | internal/services/svgengine/geometry.go:380-395 | a T segment extends the points and ends at the new current point |
| Geometry.SegmentsExtendPoints | internal/services/svgengine/geometry.go:275-409 | the argument-group loop only appends points and never rewrites earlier ones |
| Geometry.CommandsExtendPoints | internal/services/svgengine/geometry.go:265-418 | the command loop only appends points and never rewrites earlier ones |
| Geometry.PointPairs | internal/services/svgengine/geometry.go:496-506 | points are consecutive number pairs, scaled, and an odd trailing number is dropped |
| Geometry.ParsePointList | internal/services/svgengine/geometry.go:496-506 | the loop builds exactly those point pairs |
| Geometry.HullContainsPoints | internal/services/svgengine/geometry.go:186-194 | the bounds grown point by point are ordered and contain every point |
| Geometry.ChainLengthNonNegative | internal/services/svgengine/geometry.go:191-192 | the summed segment length is never negative |
| Geometry.TraceOutline | internal/services/svgengine/geometry.go:184-194 | the loop returns the chain length and the bounding box of the points |
| Geometry.ShoelaceOf | internal/services/svgengine/geometry.go:461-475 | the shoelace area is non-negative and zero for fewer than three points |
| Geometry.ShoelaceArea | internal/services/svgengine/geometry.go:461-475 | the accumulating loop computes the shoelace area |
| Geometry.ShoelaceOfRectangle | internal/services/svgengine/geometry.go:461-475 | a rectangle's four corners give the area abs(w·h) |
| Geometry.CornerRadii | internal/services/svgengine/geometry.go:83-89 | a missing corner radius copies the other one |
| Geometry.RectOf | internal/services/svgengine/geometry.go:69-106 | a rect gives w·h and 2(w+h), less the rounded corners' (4−π)·rx·ry and (4−π)(rx+ry), with bounds (x, y, x+w, y+h) |
| Geometry.CircleOf | internal/services/svgengine/geometry.go:109-126 | a circle gives perimeter 2πr, area πr² and the square bounds around the centre |
| Geometry.RamanujanOfCircle | internal/services/svgengine/geometry.go:136-138 | Ramanujan's ellipse perimeter of equal radii is the circle's 2πr |
| Geometry.EllipseOf | internal/services/svgengine/geometry.go:129-149 | an ellipse has area π·rx·ry and bounds around the centre, and with equal radii it is the circle |
| Geometry.LineOf | internal/services/svgengine/geometry.go:152-170 | a line has its length as perimeter, area 0, its two ends as points and bounds containing both |
| Geometry.PolylineGeometry | internal/services/svgengine/geometry.go:173-214 | fewer than two points give zero; otherwise the length is the chain plus the closing segment of a polygon, the bounds contain every point and only polygons have area |
| Geometry.CalculatePolyline | internal/services/svgengine/geometry.go:173-214 | the loop computes that polyline geometry |
| Geometry.PathGeometry | internal/services/svgengine/geometry.go:217-250 | an empty or degenerate path gives zero; otherwise the length is the chain length, the area the shoelace area, and the bounds contain every point |
| Geometry.CalculatePath | internal/services/svgengine/geometry.go:217-250 | the loop computes that path geometry |
| Geometry.ElementGeometry | internal/services/svgengine/geometry.go:47-66 | an element of an unsupported type has zero geometry |
| Geometry.Calculate | internal/services/svgengine/geometry.go:47-66 | the dispatch on element type computes the element's geometry |
| Classifier.AtMostOneFlag | internal/services/svgengine/classifier.go:35-40 | at most one of the cut, vector and raster flags is set, and none exactly when the element is ignored |
| Classifier.UntilSemicolon | internal/services/svgengine/classifier.go:123 | the captured value is the longest prefix without ';' |
| Classifier.UntilSemicolonWhole | internal/services/svgengine/classifier.go:123 | a value without ';' is captured whole |
| Classifier.FirstStyleMatch | internal/services/svgengine/classifier.go:123-124 | the style search finds the leftmost position where the declaration pattern matches |
| Classifier.ColorAttribute | internal/services/svgengine/classifier.go:114-130 | the attribute itself, trimmed, wins; otherwise the leftmost style declaration's value; otherwise "" |
| Classifier.StyleLeadingDeclaration | internal/services/svgengine/classifier.go:121-127 | a style starting with "name:value" yields the trimmed value |
| Classifier.HexValue | internal/services/svgengine/classifier.go:168-170 | a hex digit has a value below 16 |
| Classifier.ParseHexPair | internal/services/svgengine/classifier.go:168-173 | two hex digits give 16·high + low; any accepted pair lies in −15..255, because ParseInt accepts a sign |
| Classifier.ShortHexDoubles | internal/services/svgengine/classifier.go:157-175 | "#abc" means the same as "#aabbcc", each channel being 17 times its digit |
| Classifier.DigitsValue | internal/services/svgengine/classifier.go:180-182 | a channel's digits read as their decimal value, capped at the int64 range |
| Classifier.ParseLowered | internal/services/svgengine/classifier.go:136-154 | empty, "none" and "transparent" have no colour; a named colour gives its RGB |
| Classifier.ParseCapitalisedRed | internal/services/svgengine/classifier.go:133-154 | "Red" parses as red |
| Classifier.ParseColorIgnoresCase | internal/services/svgengine/classifier.go:134 | parsing ignores case |
| Classifier.RgbNotationMatches | internal/services/svgengine/classifier.go:177-184 | the rgb(R, G, B) pattern reads back the three digit runs |
| Classifier.ParseLoweredRgb | internal/services/svgengine/classifier.go:177-184 | a lower-cased string matching rgb(...) gives that match |
| Classifier.RgbNotationParses | internal/services/svgengine/classifier.go:177-184 | parseColor of rgb(R, G, B) gives those channel values |
| Classifier.RgbRoundTrip | internal/services/svgengine/classifier.go:177-184 | printing three channel values as rgb(r, g, b) and parsing gives them back |
| Classifier.ColorMatchReflexiveSymmetric | internal/services/svgengine/classifier.go:190-194 | the tolerance match holds between a colour and itself, and it is symmetric |
| Classifier.Classify | internal/services/svgengine/classifier.go:50-102 | the classified element keeps the raw element |
| Classifier.ClassifyPriority | internal/services/svgengine/classifier.go:50-102 | a red stroke cuts; otherwise a blue stroke engraves vector; otherwise a black fill engraves raster; the non-empty stroke and fill are recorded |
| Classifier.ClassifiedAll | internal/services/svgengine/classifier.go:105-111 | every element is classified, in order |
| Classifier.ClassifyAll | internal/services/svgengine/classifier.go:105-111 | the append loop classifies every element in order |
| Classifier.CountOf | internal/services/svgengine/classifier.go:205-219 | a category count never exceeds the number of elements |
| Classifier.CountsSumToLength | internal/services/svgengine/classifier.go:205-219 | the four category counts add up to the number of elements |
| Classifier.CountByCategory | internal/services/svgengine/classifier.go:205-219 | the counting loop returns each category's count, and the four add up to the length |
| Analyzer.ElementResultOf | internal/services/svgengine/analyzer.go:117-136 | an element result has the id when there is one, the flags of its category, and its geometry's length, area and bounds |
| Analyzer.ElementResultsAt | internal/services/svgengine/analyzer.go:110-138 | there is one result per element, in order |
| Analyzer.Union | internal/services/svgengine/analyzer.go:172-175 | the union encloses both boxes, and each side comes from one of them |
| Analyzer.ErrorResult | internal/services/svgengine/analyzer.go:88-93 | a failed parse gives status "error" with the message and an empty result |
| Analyzer.TalliesAddUp | internal/services/svgengine/analyzer.go:110-162 | the cut, vector, raster and ignored tallies add up to the element count |
| Analyzer.TallyZero | internal/services/svgengine/analyzer.go:144-158 | a tally is zero exactly when no element has that flag, and then its total is zero |
| Analyzer.GlobalBoundsEnclose | internal/services/svgengine/analyzer.go:164-177 | the global bounds enclose every element's bounds that has an extent |
| Analyzer.GlobalBoundsExist | internal/services/svgengine/analyzer.go:164-177 | there are global bounds exactly when some element has an extent |
| Analyzer.GlobalBoundsTight | internal/services/svgengine/analyzer.go:164-177 | each side of the global bounds is some element's side |
| Analyzer.GlobalBoundsStartAtFirst | internal/services/svgengine/analyzer.go:164-177 | the first element with an extent initialises the bounds |
| Analyzer.DocumentResultsAt | internal/services/svgengine/analyzer.go:100-138 | each parsed element gets a result describing it and its geometry at the document's scale |
| Analyzer.AnalysisCounts | internal/services/svgengine/analyzer.go:110-162 | the element count is the number of parsed elements, and the operation counts add up to it |
| Analyzer.AnalysisBounds | internal/services/svgengine/analyzer.go:164-177 | the analysis bounds enclose every element with an extent, and are empty when there is none |
| Analyzer.SummaryWarnings | internal/services/svgengine/analyzer.go:97-183 | the parser's warnings come first; the missing-colours warning is added exactly when no element has an operation |
| Analyzer.AnalysisWarningsOrder | internal/services/svgengine/analyzer.go:97-183 | the whole analysis keeps the parser's warnings as a prefix and adds the missing-colours warning last, exactly when nothing is operated on |
| Analyzer.AnalysisOfWarnings | internal/services/svgengine/analyzer.go:97-183 | for a parsed document without the missing-colours warning, its warnings come first in the analysis and the missing-colours warning is added last exactly when no element has an operation |
| Analyzer.Accumulate | internal/services/svgengine/analyzer.go:141-177 | one loop step keeps the running counters, sums and bounds equal to their aggregate over the results seen |
| Analyzer.AnalyzeElements | internal/services/svgengine/analyzer.go:106-178 | the loop produces the element results and their aggregates |
| Analyzer.Analyze | internal/services/svgengine/analyzer.go:80-186 | invalid XML gives the error result and the error message; otherwise the result is the document's analysis |
| ConfigLoader.Verdict | internal/services/pricing/config_loader.go:441-448 | a combination is compatible exactly when there is no record or the record allows it, with an empty reason; otherwise the reason is the record's non-empty note, or else the fixed message "Combinación tecnología/material no compatible" |
| ConfigLoader.NoteVerdict | internal/services/pricing/config_loader.go:441-448 | the verdict for a found record |
| ConfigLoader.PricingConfig.SpotSize | internal/services/pricing/config_loader.go:375-380 | the spot size is the technology's when it is positive, else the default, and always positive |
| ConfigLoader.PricingConfig.SpeedRecord | internal/services/pricing/config_loader.go:348-371 | the exact-thickness record is preferred, then the thickness-0 record, else none |
| ConfigLoader.PricingConfig.CostRecord | internal/services/pricing/config_loader.go:395-423 | the exact-thickness cost is preferred, then the thickness-0 cost, else none |
| ConfigLoader.EntityDefaults | internal/services/pricing/config_loader.go:185-247 | a missing technology prices at 0 with the default margin from system config (0.40); missing materials and engrave types have factor 1 and speed multiplier 1; a missing technology has UV premium 0 and the default spot size |
| ConfigLoader.SystemConfigFallback | internal/services/pricing/config_loader.go:262-279 | a missing or unparsable setting gives the default; a parsable one gives its value |
| ConfigLoader.EmptySystemConfigDefaults | internal/services/pricing/config_loader.go:286-333 | with no settings stored, each getter gives its fixed default: 500, 100, 20, 5, 6, 12, 7 days, 2575, 0.515, 100, waste 0.15 and margin 0.40 |
| ConfigLoader.MaterialSpeedFound | internal/services/pricing/config_loader.go:348-371 | a speed is found exactly when an exact or a thickness-0 record exists; otherwise the result is empty |
| ConfigLoader.MaterialCostFound | internal/services/pricing/config_loader.go:395-423 | a cost is found exactly when an exact or a thickness-0 record exists; otherwise it is zero |
| ConfigLoader.NoRecordCompatible | internal/services/pricing/config_loader.go:437-467 | a pair with no record at the asked thickness and none at thickness 0 is compatible with an empty reason, even when records at other thicknesses exist |
| ConfigLoader.GetVolumeDiscount | internal/services/pricing/config_loader.go:174-182 | the loop returns the discount of the last matching tier |
| ConfigLoader.GetMaterialSpeed | internal/services/pricing/config_loader.go:348-371 | the two-pass search returns the preferred speed record |
| ConfigLoader.GetMaterialCost | internal/services/pricing/config_loader.go:395-423 | the two-pass search returns the preferred material cost |
| ConfigLoader.IsCompatible | internal/services/pricing/config_loader.go:437-468 | the two-pass search returns the record's verdict |
| VolumeDiscounts.DiscountForQuantity | internal/models/volume_discount.go:22-31 | with no tier containing the quantity the discount is 0; otherwise it is the discount of a tier that contains it |
| VolumeDiscounts.FirstTierWins | internal/models/volume_discount.go:23-28 | the first tier that contains the quantity decides |
| VolumeDiscounts.FirstIndexInTier | internal/models/volume_discount.go:23-28 | when a tier contains the quantity, there is a first one |
| VolumeDiscounts.LastTierWins | internal/services/pricing/config_loader.go:174-182 | the loader's loop lets the last matching tier decide |
| VolumeDiscounts.NoTierNoDiscount | internal/services/pricing/config_loader.go:174-182 | without a matching tier the loader gives 0 |
| VolumeDiscounts.FirstMatchIsLastMatch | internal/models/volume_discount.go:22-31 | for non-overlapping tiers, the model's first match and the loader's last match agree |
| MaterialCosts.CostPerMm2 | internal/models/material_cost.go:30-39 | with full sheet data the cost is the sheet cost spread over its area; otherwise the stored cost per mm² |
| SvgAnalyses.SvgAnalysis.TotalArea | internal/models/svg_analysis.go:57-59 | the bounds area is non-negative for ordered bounds and zero for a flat box |
| SvgAnalyses.SvgAnalysis.HasCutOperations | internal/models/svg_analysis.go:62-64 | a design has cutting exactly when its cut length is positive; TimeEstimator.UnitCutMins ties it to a positive cut time |
| SvgAnalyses.SvgAnalysis.HasEngraveOperations | internal/models/svg_analysis.go:67-69 | a design has engraving exactly when its vector length or its raster area is positive; TimeEstimator.UnitEngraveMins ties it to a positive engrave time |
| SvgAnalyses.SvgAnalysis.ComplexityFactor | internal/models/svg_analysis.go:73-82 | no area gives complexity 0; non-negative lengths give a non-negative factor |
| SvgAnalyses.NewtonStepBounds | internal/models/svg_analysis.go:91 | a Newton step from a positive guess stays positive and its square is at least the input |
| SvgAnalyses.NewtonIterate | internal/models/svg_analysis.go:89-93 | after at least one step, the square of the iterate is at least the input |
| SvgAnalyses.NewtonSqrt | internal/models/svg_analysis.go:85-94 | non-positive inputs give 0; positive inputs give a positive root whose square is at least the input |
| SvgAnalyses.Sqrt | internal/models/svg_analysis.go:85-94 | the ten-iteration loop computes that root |
| Users.User.RemainingQuotes | internal/models/user.go:46-55 | an unlimited quota gives −1; otherwise the quota less the quotes used, never below 0 |
| Users.User.NombreCompleto | internal/models/user.go:82-87 | the full name adds the surname after one space when it is present and non-empty |
| Users.User.HasPassword | internal/models/user.go:33-35 | a password is set exactly when a non-empty hash is stored; Users.NoPasswordWithoutHash states the two negative cases |
| Users.User.CanQuote | internal/models/user.go:38-43 | an unlimited quota or fewer quotes used than allowed; Users.QuotaReadingsAgree ties it to RemainingQuotes |
| Users.User.IsAdmin | internal/models/user.go:58-60 | the role is exactly "admin" |
| Users.QuotaReadingsAgree | internal/models/user.go:38-55 | a limited user can quote exactly when quotes remain; an unlimited user always can |
| Users.UsingAQuote | internal/models/user.go:46-55 | using a quote lowers the remaining count by one |
| Users.NoPasswordWithoutHash | internal/models/user.go:33-35 | a missing or empty hash means no password |
| Quotes.Quote.IsExpired | internal/models/quote.go:95-97 | expired strictly after the validity end, with the clock reading passed in |
| Quotes.Quote.CanBeConverted | internal/models/quote.go:100-102 | approved or auto-approved and not expired; Quotes.ConvertibleStatuses states it per status |
| Quotes.Quote.NeedsReview | internal/models/quote.go:105-107 | the status is exactly needs_review; Quotes.ConvertibleStatuses shows such a quote never converts |
| Quotes.ConvertibleStatuses | internal/models/quote.go:95-107 | a quote converts exactly when it is auto-approved or approved and not expired; the other statuses never convert |
| Quotes.PutIfPresent | internal/models/quote.go:174-185 | an optional name is added under its key only when present, and other keys are untouched |
| Quotes.FixedFields | internal/models/quote.go:124-172 | the detailed JSON always has the fixed set of keys |
| Quotes.DetailedJson | internal/models/quote.go:124-188 | the keys are the fixed ones plus the keys of the optional values that are present |
| Quotes.DetailedJsonOptionalValues | internal/models/quote.go:174-185 | each optional value present is stored under its key |
| Quotes.DetailedJsonStatus | internal/models/quote.go:124-188 | the detailed JSON carries the quote's status |
| Quotes.SummaryJson | internal/models/quote.go:110-121 | the summary has exactly its eight keys |
| Quotes.SummaryAgreesWithDetailed | internal/models/quote.go:110-188 | the summary and the detailed view agree on status and validity |
| Quotes.SummaryPricesAgree | internal/models/quote.go:110-188 | the summary's unit and final prices are the detailed view's hybrid unit and final prices |
| CedulaUtils.CleanCedula | internal/utils/cedula.go:64-66 | cleaning keeps only digits |
| CedulaUtils.CleanIsDigits | internal/utils/cedula.go:64-66 | trimming before removing non-digits changes nothing: the result is the string's digits |
| CedulaUtils.CleanIdempotent | internal/utils/cedula.go:64-66 | cleaning twice is cleaning once |
| CedulaUtils.ValidateCedula | internal/utils/cedula.go:34-61 | valid exactly for 9 cleaned digits (física) or 10 (jurídica) not starting with 0; the result then carries the cleaned number and its type |
| CedulaUtils.ValidationSeesOnlyDigits | internal/utils/cedula.go:40 | two inputs with the same digits validate alike |
| CedulaUtils.SeparatorsIgnored | internal/utils/cedula.go:40 | separators between digits do not affect validation |
| CedulaUtils.CleanedValidatesAlike | internal/utils/cedula.go:40 | a cleaned cédula validates like the original |
| CedulaUtils.TypesExclusive | internal/utils/cedula.go:17-58 | no cleaned number matches both the física and the jurídica pattern |
| CedulaUtils.IsCedulaFisica | internal/utils/cedula.go:69-71 | the cleaned number has the física shape; CedulaUtils.PredicatesAgreeWithValidation ties it to the validation |
| CedulaUtils.IsCedulaJuridica | internal/utils/cedula.go:74-76 | the cleaned number has the jurídica shape; CedulaUtils.PredicatesAgreeWithValidation ties it to the validation |
| CedulaUtils.PredicatesAgreeWithValidation | internal/utils/cedula.go:69-76 | IsCedulaFisica and IsCedulaJuridica hold exactly when validation finds that type |
| Jwt.ExtractTokenFromHeader | internal/utils/jwt.go:79-90 | an empty header, a header without a space, or a scheme other than Bearer (any case) gives ""; otherwise the trimmed rest |
| Jwt.SchemeThenToken | internal/utils/jwt.go:84-89 | "scheme rest" gives the trimmed rest exactly for the Bearer scheme |
| CedulaService.Capitalize | internal/services/cedula/cedula_service.go:217-223 | capitalising keeps the word's length |
| CedulaService.CapitalizeAll | internal/services/cedula/cedula_service.go:217-223 | every word is capitalised, in order |
| CedulaService.FormattedName | internal/services/cedula/cedula_service.go:211-224 | a blank name formats as "" |
| CedulaService.FormatName | internal/services/cedula/cedula_service.go:211-224 | the in-place loop over the words computes the formatted name |
| CedulaService.CapitalizeIdempotent | internal/services/cedula/cedula_service.go:217-223 | capitalising twice is capitalising once |
| CedulaService.FormattedNameCollapsed | internal/services/cedula/cedula_service.go:211-224 | the formatted name has no outer spaces, its words are the capitalised words of the input, and it is joined by single spaces |
| CedulaService.FormattedNameIdempotent | internal/services/cedula/cedula_service.go:211-224 | formatting twice is formatting once |
| CedulaService.JoinIfPresent | internal/services/cedula/cedula_service.go:197-205 | the second part is appended after one space only when it is non-empty |
| CedulaService.GetNombreFormateado | internal/services/cedula/cedula_service.go:196-208 | given names and surnames are each joined when the second part is present |
| CedulaService.GetNombreFormateadoExample | internal/services/cedula/cedula_service_test.go:82-99 | Juan Carlos Pérez Mora gives ("Juan Carlos", "Pérez Mora") |
| CedulaService.TipoFromGuess | internal/services/cedula/cedula_service.go:150-157 | an empty guess keeps the type; otherwise the identification type is the lower-cased guess, and the type is jurídica exactly when the upper-cased guess is JURIDICA |
| CedulaService.RegistryResult | internal/services/cedula/cedula_service.go:138-157 | a registry hit is valid and online, with formatted names, the given name as nombre, and the type from the guess |
| CedulaService.ValidarCedula | internal/services/cedula/cedula_service.go:85-172 | an error is returned exactly when the format is invalid, and it is the format error |
| CedulaService.ValidarCedulaOutcomes | internal/services/cedula/cedula_service.go:117-172 | for a valid number: confirmed exactly on status 200 with results; offline on a network error, an unreadable body or an unexpected status; never both; the number is the cleaned one |
| CedulaService.ToMetadata | internal/services/cedula/cedula_service.go:175-193 | the metadata holds a single "extras" object and nothing else |
| CedulaService.Extras | internal/services/cedula/cedula_service.go:177-191 | the thirteen extras keys; their values are stated by the three Metadata*Fields lemmas |
| CedulaService.MetadataIdentityFields | internal/services/cedula/cedula_service.go:178-181 | the extras hold the registry verdict, the cédula number, the official name and the type upper-cased |
| CedulaService.MetadataNameFields | internal/services/cedula/cedula_service.go:183-186 | the extras hold the four name parts unchanged |
| CedulaService.MetadataOtherFields | internal/services/cedula/cedula_service.go:182-190 | the extras hold the identification type, the tax situation, one entry per activity, the lookup time and the source |
| AuthService.GetString | internal/services/auth/auth_service.go:453-458 | the value is read only when it is a string; otherwise "" |
| AuthService.NamePartsStored | internal/services/cedula/cedula_service.go:183-186 | reading the four name parts back from the extras gives them unchanged |
| AuthService.OtherPartsStored | internal/services/cedula/cedula_service.go:180-190 | reading the official name, the type, the identification type and the tax situation back from the extras gives the official name, the identification type and the tax situation unchanged and the type upper-cased |
| AuthService.ExtractDatosFromMetadata | internal/services/auth/auth_service.go:452-486 | given names and surnames are joined when present, and the type is lower-cased |
| AuthService.ExtractFromEmpty | internal/services/auth/auth_service.go:452-486 | empty metadata gives an all-empty record |
| AuthService.FreshDatos | internal/services/auth/auth_service.go:148-162 | a fresh lookup shows the formatted name pair |
| AuthService.TipoCaseRoundTrip | internal/services/auth/auth_service.go:482 | the two type names survive being upper-cased on storage and lower-cased on reading |
| AuthService.MetadataRoundTrip | internal/services/auth/auth_service.go:452-486 | storing a result with ToMetadata and reading it back gives the data a fresh lookup shows |
| AuthService.SplitProvidedName | internal/services/auth/auth_service.go:264-270 | a trimmed name with a space splits at its first space; without one it is all given name |
| AuthService.SplitKeepsGivenName | internal/services/auth/auth_service.go:264-270 | a non-blank name never splits into an empty given name |
| AuthService.RegistroGate | internal/services/auth/auth_service.go:236-280 | a lookup error becomes the format error; offline with validation required and online unconfirmed refuse; otherwise the official or the split name is used, with metadata exactly when confirmed |
| AuthService.RegistroAfterLookup | internal/services/auth/auth_service.go:236-251 | a registry 404 refuses registration, a registry hit admits it, and offline admits it exactly when validation is not required |
| AuthHandler.IsValidEmailMeaning | internal/handlers/auth/auth_handler.go:401-409 | valid exactly when the first '@' is not at the start and the last '.' lies after the character following it and before the end |
| AuthHandler.IsValidEmailExamples | internal/handlers/auth/auth_handler.go:401-409 | "a@b.c" passes; "@b.c", "a@.c" and "a@b." fail |
| AuthHandler.IsValidEmail | internal/handlers/auth/auth_handler.go:401-409 | an '@' not at the start and a last '.' at least two positions after it and before the end; AuthHandler.IsValidEmailMeaning spells it out |
| ConfigHandler.GroupByTechnology | internal/handlers/config/config_handler.go:212-262 | the loop builds the grouping of all speed records |
| ConfigHandler.AddRecord | internal/handlers/config/config_handler.go:222-261 | one loop step absorbs one record into the grouping |
| ConfigHandler.HasThickness | internal/handlers/config/config_handler.go:244-250 | the duplicate scan finds a thickness exactly when it is listed |
| ConfigHandler.AddThickness | internal/handlers/config/config_handler.go:243-253 | a thickness is appended only when new, keeping the list free of duplicates |
| ConfigHandler.Dedup | internal/handlers/config/config_handler.go:243-253 | the deduplicated list has no duplicates and the same members |
| ConfigHandler.GroupKeys | internal/handlers/config/config_handler.go:222-241 | a technology is listed exactly when some record has it, under its own id |
| ConfigHandler.GroupThicknesses | internal/handlers/config/config_handler.go:243-253 | a technology's thicknesses are its records' thicknesses with duplicates removed, in first-seen order |
| ConfigHandler.ThicknessesListed | internal/handlers/config/config_handler.go:243-253 | the thickness list has no duplicates and holds exactly the thicknesses of that technology's records |
| ConfigHandler.GroupCapabilities | internal/handlers/config/config_handler.go:237-261 | can cut (can engrave) exactly when some record of the technology has a positive cut (engrave) speed |
| ConfigHandler.GroupNamesFromFirstRecord | internal/handlers/config/config_handler.go:222-236 | name and code come from the technology's first record |
| TimeEstimator.PositiveOrOne | internal/services/pricing/time_estimator.go:46-55 | a factor that is not positive becomes 1; the result is always positive |
| TimeEstimator.Effective | internal/services/pricing/time_estimator.go:58-68 | an effective engrave speed is positive |
| TimeEstimator.CutSpeed | internal/services/pricing/time_estimator.go:76 | the effective cut speed is positive |
| TimeEstimator.UnitEngraveMins | internal/services/pricing/time_estimator.go:59-70 | one piece's engrave time is non-negative and positive exactly when the design has engraving |
| TimeEstimator.UnitCutMins | internal/services/pricing/time_estimator.go:75-78 | one piece's cut time is non-negative and positive exactly when the design has cutting |
| TimeEstimator.UnitTimes | internal/services/pricing/time_estimator.go:46-78 | the accumulating steps compute one piece's engrave and cut minutes |
| TimeEstimator.Estimate | internal/services/pricing/time_estimator.go:36-92 | the engrave and cut minutes are per-piece times multiplied by the quantity, the setup is 5 minutes once, and the total is their sum |
| TimeEstimator.EstimatePerUnit | internal/services/pricing/time_estimator.go:95-102 | the single-piece estimate is the per-piece times plus setup |
| TimeEstimator.GetSpeedInfo | internal/services/pricing/time_estimator.go:117-138 | the reported multiplier, factor and effective speeds are all positive |
| TimeEstimator.SpeedInfoMatchesEstimate | internal/services/pricing/time_estimator.go:117-138 | the speeds GetSpeedInfo reports are those the estimate divides by |
| TimeEstimator.SetupOnce | internal/services/pricing/time_estimator.go:80-89 | the total grows with the quantity only by the per-piece time; setup is paid once |
| PriceCalculator.RoundHalfAway | internal/services/pricing/calculator.go:130 | math.Round is within half of its argument, rounds half away from zero, and keeps integers |
| PriceCalculator.Round2 | internal/services/pricing/calculator.go:130-169 | rounding to cents moves a value by at most 0.005 and keeps it non-negative |
| PriceCalculator.Round2Idempotent | internal/services/pricing/calculator.go:130-169 | rounding to cents twice is rounding once |
| PriceCalculator.Round2Monotone | internal/services/pricing/calculator.go:130-169 | rounding to cents preserves order |
| PriceCalculator.Max | internal/services/pricing/calculator.go:154 | math.Max is one of its arguments and at least both |
| PriceCalculator.ComplexityStatus | internal/services/pricing/calculator.go:176-189 | auto-approved up to the first threshold, needs review up to the second, rejected beyond; each with its note |
| PriceCalculator.SimplerIsNoWorse | internal/services/pricing/calculator.go:176-189 | a simpler design never gets a more severe status |
| PriceCalculator.BilledArea | internal/services/pricing/calculator.go:145-149 | the billed area is the total area, raised to the minimum area |
| PriceCalculator.ValueBase | internal/services/pricing/calculator.go:152-154 | the value base is at least the minimum base and at least area times price per mm² |
| PriceCalculator.Calculate | internal/services/pricing/calculator.go:62-192 | a configuration error is returned as is; otherwise the field-by-field assignments compute the price of the design |
| PriceCalculator.CostPart | internal/services/pricing/calculator.go:102-110 | the engrave, cut, setup, base and material costs of the order |
| PriceCalculator.HybridPart | internal/services/pricing/calculator.go:118-128 | the per-piece cost with margin, material, engrave and UV factors applied |
| PriceCalculator.ShareOfTimeCosts | internal/services/pricing/calculator.go:118-121 | dividing the order's time costs by the quantity gives back one piece's cost |
| PriceCalculator.TotalPart | internal/services/pricing/calculator.go:133-137 | the total is the unit price times the quantity, less the discount, plus the setup, rounded |
| PriceCalculator.ValuePart | internal/services/pricing/calculator.go:145-160 | the value unit price is the value base with the same factors |
| PriceCalculator.BreakdownAddsUp | internal/services/pricing/calculator.go:102-169 | the time total and the base cost sum their parts; the material cost is base·(factor−1); overhead is 0; both totals follow the total rule |
| PriceCalculator.UnitPriceIndependentOfQuantity | internal/services/pricing/calculator.go:118-130 | the hybrid and the value unit prices do not depend on the quantity |
| PriceCalculator.UnitPriceNearExact | internal/services/pricing/calculator.go:118-131 | the hybrid unit price is within a half cent of one piece's exact price |
| PriceCalculator.DiscountSparesSetup | internal/services/pricing/calculator.go:133-167 | a discount never raises the total, and the setup fee is never discounted |
| PriceCalculator.ValueAtLeastMinimum | internal/services/pricing/calculator.go:145-162 | the value unit price is at least the minimum base with the factors applied |
| PriceCalculator.StatusFromComplexity | internal/services/pricing/calculator.go:176-189 | the computed quote is auto-approved exactly when the complexity is within the first threshold, and rejected exactly when it exceeds both |
| PriceCalculator.ValidityDays | internal/services/pricing/calculator.go:208-211 | the validity is the configured days, or 7 when the configuration fails to load |
| PriceCalculator.ToQuoteModel | internal/services/pricing/calculator.go:195-250 | the quote copies the breakdown and the status, is valid until now plus the validity days, and its final price is the hybrid total |
| PriceCalculator.QuoteWorkflow | internal/services/pricing/calculator.go:176-212 | an auto-approved quote converts exactly until it expires; one needing review, or rejected, does not convert |
| PriceCalculator.FreshQuoteNotExpired | internal/services/pricing/calculator.go:208-212 | a fresh quote is not expired at its creation time |

## Left out

- Parsing XML, the element-tag regular expression, the path and number
  tokenizers, `strconv.ParseFloat`, `math.Sqrt` and `math.Pi` are library
  calls. They are parameters of the `Foreign` record. Only `Sane` (a
  square root that is never negative and a positive pi) is assumed, and only where a
  lemma needs it.
- IEEE floating point is modelled as exact reals: there is no rounding
  error, NaN or infinity. A division by zero that would give an infinity or
  NaN yields 0 (`FloatDiv`). This affects the per-unit cost when the
  quantity is 0 (the quote handler clamps the quantity to at least 1 at
  internal/handlers/quote/handler.go:144-146) and the effective speeds,
  which are always positive here.
- PriceCalculator.Calculate: the calculator calls `Estimate` with a
  thickness argument that the estimator does not declare, and the quote
  handler calls `Calculate` without one. The model's `Calculate` accepts a
  thickness and does not use it; `Estimate` has no thickness parameter.
- PriceCalculator.Calculate: loading the configuration from the database
  (`Load`, `Refresh`, the cache and its time to live) is a parameter, either
  the loaded configuration or the load error.
- Geometry.SubdivideCubic: the recursion is bounded by a fixed depth. The
  Go code recurses until the curve is flat, which for finite floats ends.
  The lemmas hold for any depth.
- The arc command A is drawn as a straight line to its end point, as the Go
  code does; true elliptical arcs are not computed by either.
- The HasCut, HasVector and HasRaster flags are derived from the element's
  single category. The Go struct has only the category, while the analyzer
  reads the flags.
- Case mapping in `ToLower`, `ToUpper` and `EqualFold` covers ASCII and
  Latin-1 letters, plus the few code points whose Go mapping lands on one
  of them. Other Unicode case mappings are not modelled.
- CedulaService.FormatName upper-cases the first character of each word.
  Go indexes the first byte, which is the same only for ASCII first letters.
  A word starting with a multi-byte character is not modelled as Go
  splits it.
- The slice conversion of the technology map at
  internal/handlers/config/config_handler.go:265-268 is left out, because Go
  map iteration order is unspecified. The model returns the map.
- The HTTP handlers' request decoding and JSON responding, the database
  repositories, password hashing, token signing and verification, and the
  Registro steps after the registry gate are left out, because they are I/O
  and cryptography.
- `VerificarCedula`'s repository steps, `EstablecerPassword`, `Login`,
  `UpdateProfile` and `CacheValido` are left out for the same reason. The
  cached and the fresh paths of `VerificarCedula` are related by
  `MetadataRoundTrip`.
- The registry HTTP call is a parameter of `ValidarCedula`: either no
  answer, or a status code with the decoded records. The query time is a
  string parameter.
- The clock is a parameter. Instants are seconds, and `AddDate(0, 0, n)` is
  n times 86400 seconds, so daylight-saving shifts are not modelled.
- `ToPublicJSON`, the analyzer's `ToModel`, `CalculateFileHash` and the SVG
  analysis `ToSummary` are field copies and hashing, and are left out.
- `parseViewBox` stores the fields it has parsed even when a later part
  fails. The model keeps that partial viewBox with `valid` false.
- `#-f0000` parses because Go's `ParseInt` accepts a sign. The model keeps
  that behaviour.
- `GetSpotSize` reads a `SpotSizeMM` field that internal/models/technology.go
  does not declare. The model's technology record carries the field.
- The configuration's `GoMetaRequireValidation` is a parameter of the
  registration gate, because internal/config/config.go does not declare it.
