// The analyzer of the drawing engine: parse the document, classify every
// element by colour, measure it, and aggregate lengths, areas, counts and
// one global bounding box per upload.
module Analyzer {
  import opened Common
  import opened Externals
  import opened SvgParser
  import opened Classifier
  import opened Geometry

  /** One analysed element: its type and id, its colours, its measures and its operation flags. */
  datatype ElementResult = ElementResult(
    typ: string,
    elementId: Option<string>,
    category: Category,
    strokeColor: Option<string>,
    fillColor: Option<string>,
    length: real,
    area: real,
    perimeter: real,
    bounds: BoundingBox,
    hasCut: bool,
    hasVector: bool,
    hasRaster: bool)

  /** The analysis of one document. */
  datatype AnalysisResult = AnalysisResult(
    width: real,
    height: real,
    cutLength: real,
    vectorLength: real,
    rasterArea: real,
    elementCount: nat,
    cutCount: nat,
    vectorCount: nat,
    rasterCount: nat,
    ignoredCount: nat,
    bounds: BoundingBox,
    elements: seq<ElementResult>,
    warnings: seq<Warning>,
    status: string,
    error: string)

  const StatusAnalyzed: string := "analyzed"
  const StatusError: string := "error"

  const NoBounds: BoundingBox := BoundingBox(0.0, 0.0, 0.0, 0.0)

  /** The three operations an element can request. */
  datatype Operation = CutOp | VectorOp | RasterOp

  /** Whether the element requests the operation. */
  predicate Flag(r: ElementResult, op: Operation)
  {
    match op
    case CutOp => r.hasCut
    case VectorOp => r.hasVector
    case RasterOp => r.hasRaster
  }

  /** What the operation is charged by: the length for cutting and vector engraving, the area for raster. */
  function Measure(r: ElementResult, op: Operation): real
  {
    match op
    case CutOp => r.length
    case VectorOp => r.length
    case RasterOp => r.area
  }

  /** The element result built from a classified element and its geometry; the id only when non-empty. */
  function ElementResultOf(e: ClassifiedElement, g: GeometryResult): (r: ElementResult)
    ensures r.elementId.Some? <==> e.raw.id != ""
    ensures r.elementId.Some? ==> r.elementId.value == e.raw.id
    ensures r.hasCut == e.HasCut() && r.hasVector == e.HasVector() && r.hasRaster == e.HasRaster()
    ensures r.length == g.length && r.area == g.area && r.bounds == g.bounds
  {
    ElementResult(
      e.raw.typ,
      if e.raw.id != "" then Some(e.raw.id) else None,
      e.category, e.strokeColor, e.fillColor,
      g.length, g.area, g.perimeter, g.bounds,
      e.HasCut(), e.HasVector(), e.HasRaster())
  }

  /** The results of the classified elements, in order, each measured with calculator `c`. */
  function ElementResults(f: Foreign, c: Calculator, es: seq<ClassifiedElement>): seq<ElementResult>
    decreases |es|
  {
    if es == [] then []
    else
      var last := es[|es| - 1];
      ElementResults(f, c, es[..|es| - 1]) + [ElementResultOf(last, ElementGeometry(f, c, last.raw))]
  }

  /** One result per classified element, at the same position. */
  lemma {:induction false} ElementResultsAt(f: Foreign, c: Calculator, es: seq<ClassifiedElement>)
    ensures |ElementResults(f, c, es)| == |es|
    ensures forall i :: 0 <= i < |es| ==>
      ElementResults(f, c, es)[i] == ElementResultOf(es[i], ElementGeometry(f, c, es[i].raw))
    decreases |es|
  {
    if es != [] {
      var prefix := es[..|es| - 1];
      ElementResultsAt(f, c, prefix);
      forall i | 0 <= i < |es|
        ensures ElementResults(f, c, es)[i] == ElementResultOf(es[i], ElementGeometry(f, c, es[i].raw))
      {
        if i < |es| - 1 {
          assert es[i] == prefix[i];
        }
      }
    }
  }

  /** The sum of the operation's measure over the elements that request it. */
  function Total(rs: seq<ElementResult>, op: Operation): real
    decreases |rs|
  {
    if rs == [] then 0.0
    else
      var last := rs[|rs| - 1];
      Total(rs[..|rs| - 1], op) + (if Flag(last, op) then Measure(last, op) else 0.0)
  }

  /** The number of elements that request the operation. */
  function Tally(rs: seq<ElementResult>, op: Operation): (n: nat)
    ensures n <= |rs|
    decreases |rs|
  {
    if rs == [] then 0
    else Tally(rs[..|rs| - 1], op) + (if Flag(rs[|rs| - 1], op) then 1 else 0)
  }

  predicate NoOperation(r: ElementResult)
  {
    !r.hasCut && !r.hasVector && !r.hasRaster
  }

  /** The number of elements that request no operation at all. */
  function IgnoredTally(rs: seq<ElementResult>): (n: nat)
    ensures n <= |rs|
    decreases |rs|
  {
    if rs == [] then 0
    else IgnoredTally(rs[..|rs| - 1]) + (if NoOperation(rs[|rs| - 1]) then 1 else 0)
  }

  /** A box of positive extent along at least one axis; only these take part in the global bounds. */
  predicate HasExtent(b: BoundingBox)
  {
    b.maxX > b.minX || b.maxY > b.minY
  }

  /** The smallest box holding both boxes. */
  function Union(a: BoundingBox, b: BoundingBox): (u: BoundingBox)
    ensures Encloses(u, a) && Encloses(u, b)
    ensures (u.minX == a.minX || u.minX == b.minX) && (u.minY == a.minY || u.minY == b.minY)
    ensures (u.maxX == a.maxX || u.maxX == b.maxX) && (u.maxY == a.maxY || u.maxY == b.maxY)
  {
    BoundingBox(Min(a.minX, b.minX), Min(a.minY, b.minY), Max(a.maxX, b.maxX), Max(a.maxY, b.maxY))
  }

  /** The global bounds: the first box of positive extent, grown by every later one; None without one. */
  function GlobalBounds(rs: seq<ElementResult>): Option<BoundingBox>
    decreases |rs|
  {
    if rs == [] then None
    else
      var prev := GlobalBounds(rs[..|rs| - 1]);
      var b := rs[|rs| - 1].bounds;
      if !HasExtent(b) then prev
      else if prev.None? then Some(b)
      else Some(Union(prev.value, b))
  }

  /** The reported bounds: the global bounds, or the zero box when no element has extent. */
  function ReportedBounds(rs: seq<ElementResult>): BoundingBox
  {
    GlobalBounds(rs).GetOr(NoBounds)
  }

  /** The warnings of the analysis: the parser's, then the no-standard-colours warning when nothing is cut or engraved. */
  function AnalysisWarnings(parsed: seq<Warning>, cutCount: nat, vectorCount: nat, rasterCount: nat): seq<Warning>
  {
    if cutCount == 0 && vectorCount == 0 && rasterCount == 0 then parsed + [NoStandardColors] else parsed
  }

  /** The aggregated analysis of the element results of a parsed document. */
  function Summary(width: real, height: real, parsed: seq<Warning>, rs: seq<ElementResult>): AnalysisResult
  {
    AnalysisResult(
      width, height,
      Total(rs, CutOp), Total(rs, VectorOp), Total(rs, RasterOp),
      |rs|, Tally(rs, CutOp), Tally(rs, VectorOp), Tally(rs, RasterOp), IgnoredTally(rs),
      ReportedBounds(rs), rs,
      AnalysisWarnings(parsed, Tally(rs, CutOp), Tally(rs, VectorOp), Tally(rs, RasterOp)),
      StatusAnalyzed, "")
  }

  /** The calculator for a parsed document: its viewBox-to-mm scale factors. */
  function CalculatorFor(p: ParsedSvg): Calculator
  {
    NewCalculator(GetScaleFactor(p).0, GetScaleFactor(p).1)
  }

  /** The results of every element of a parsed document, classified and measured. */
  function DocumentResults(f: Foreign, p: ParsedSvg): seq<ElementResult>
  {
    ElementResults(f, CalculatorFor(p), ClassifiedAll(p.elements))
  }

  /** The analysis of a well-formed document. */
  function Analysis(f: Foreign, doc: SvgDocument): AnalysisResult
  {
    AnalysisOf(f, ParseDocument(f, doc))
  }

  /** The analysis of a parsed document. */
  function AnalysisOf(f: Foreign, p: ParsedSvg): AnalysisResult
  {
    Summary(p.width, p.height, p.warnings, DocumentResults(f, p))
  }

  /** The result of a document that does not parse: status error with the message, nothing measured. */
  function ErrorResult(message: string): (r: AnalysisResult)
    ensures r.status == StatusError && r.error == message
    ensures r.elements == [] && r.warnings == [] && r.elementCount == 0
  {
    AnalysisResult(0.0, 0.0, 0.0, 0.0, 0.0, 0, 0, 0, 0, 0, NoBounds, [], [], StatusError, message)
  }

  // ---------------------------------------------------------------- properties of the aggregation

  /** An element requests at most one operation. */
  predicate SingleOperation(r: ElementResult)
  {
    !(r.hasCut && r.hasVector) && !(r.hasCut && r.hasRaster) && !(r.hasVector && r.hasRaster)
  }

  /** With single-operation elements, the three operation counts and the ignored count add up to the element count. */
  lemma {:induction false} TalliesAddUp(rs: seq<ElementResult>)
    requires forall i :: 0 <= i < |rs| ==> SingleOperation(rs[i])
    ensures Tally(rs, CutOp) + Tally(rs, VectorOp) + Tally(rs, RasterOp) + IgnoredTally(rs) == |rs|
    decreases |rs|
  {
    if rs != [] {
      var prefix := rs[..|rs| - 1];
      assert forall i :: 0 <= i < |prefix| ==> prefix[i] == rs[i];
      TalliesAddUp(prefix);
      assert SingleOperation(rs[|rs| - 1]);
    }
  }

  /** No element is counted for an operation exactly when none requests it; then its total is 0. */
  lemma {:induction false} TallyZero(rs: seq<ElementResult>, op: Operation)
    ensures Tally(rs, op) == 0 <==> forall i :: 0 <= i < |rs| ==> !Flag(rs[i], op)
    ensures Tally(rs, op) == 0 ==> Total(rs, op) == 0.0
    decreases |rs|
  {
    if rs != [] {
      var prefix := rs[..|rs| - 1];
      TallyZero(prefix, op);
      assert forall i :: 0 <= i < |prefix| ==> prefix[i] == rs[i];
    }
  }

  /** Every box of positive extent lies inside the global bounds. */
  lemma {:induction false} GlobalBoundsEnclose(rs: seq<ElementResult>)
    ensures forall i :: 0 <= i < |rs| && HasExtent(rs[i].bounds) ==>
      GlobalBounds(rs).Some? && Encloses(GlobalBounds(rs).value, rs[i].bounds)
    decreases |rs|
  {
    if rs != [] {
      var prefix := rs[..|rs| - 1];
      GlobalBoundsEnclose(prefix);
      forall i | 0 <= i < |rs| && HasExtent(rs[i].bounds)
        ensures GlobalBounds(rs).Some? && Encloses(GlobalBounds(rs).value, rs[i].bounds)
      {
        if i < |rs| - 1 {
          assert prefix[i] == rs[i];
        }
      }
    }
  }

  /** There are global bounds exactly when some element has a box of positive extent. */
  lemma {:induction false} GlobalBoundsExist(rs: seq<ElementResult>)
    ensures GlobalBounds(rs).Some? <==> exists i :: 0 <= i < |rs| && HasExtent(rs[i].bounds)
    decreases |rs|
  {
    if rs != [] {
      var prefix := rs[..|rs| - 1];
      GlobalBoundsExist(prefix);
      if i :| 0 <= i < |prefix| && HasExtent(prefix[i].bounds) {
        assert rs[i] == prefix[i];
      }
      if i :| 0 <= i < |rs| - 1 && HasExtent(rs[i].bounds) {
        assert prefix[i] == rs[i];
      }
    }
  }

  /** The global bounds are tight: each side is the matching side of some element's box of positive extent. */
  lemma {:induction false} GlobalBoundsTight(rs: seq<ElementResult>)
    requires GlobalBounds(rs).Some?
    ensures exists i :: 0 <= i < |rs| && HasExtent(rs[i].bounds) && GlobalBounds(rs).value.minX == rs[i].bounds.minX
    ensures exists i :: 0 <= i < |rs| && HasExtent(rs[i].bounds) && GlobalBounds(rs).value.minY == rs[i].bounds.minY
    ensures exists i :: 0 <= i < |rs| && HasExtent(rs[i].bounds) && GlobalBounds(rs).value.maxX == rs[i].bounds.maxX
    ensures exists i :: 0 <= i < |rs| && HasExtent(rs[i].bounds) && GlobalBounds(rs).value.maxY == rs[i].bounds.maxY
    decreases |rs|
  {
    var prefix := rs[..|rs| - 1];
    var n := |rs| - 1;
    var b := rs[n].bounds;
    if !HasExtent(b) || GlobalBounds(prefix).None? {
      if GlobalBounds(prefix).Some? {
        GlobalBoundsTight(prefix);
        LiftWitnesses(rs);
      } else {
        assert HasExtent(b);
        assert GlobalBounds(rs).value == b;
      }
    } else {
      GlobalBoundsTight(prefix);
      LiftWitnesses(rs);
    }
  }

  /** A witness in all but the last element is a witness in the whole sequence. */
  lemma {:induction false} LiftWitnesses(rs: seq<ElementResult>)
    requires |rs| > 0
    ensures forall i :: 0 <= i < |rs| - 1 ==> rs[..|rs| - 1][i] == rs[i]
  {
  }

  /** The first box of positive extent initialises the global bounds. */
  lemma {:induction false} GlobalBoundsStartAtFirst(rs: seq<ElementResult>, j: nat)
    requires j < |rs| && HasExtent(rs[j].bounds)
    requires forall i :: 0 <= i < j ==> !HasExtent(rs[i].bounds)
    ensures GlobalBounds(rs[..j + 1]) == Some(rs[j].bounds)
  {
    var prefix := rs[..j];
    assert rs[..j + 1][..j] == prefix;
    GlobalBoundsExist(prefix);
  }

  /** The result describes the raw element: its type, its category, its measures, and one operation at most. */
  predicate Describes(r: ElementResult, e: RawElement, g: GeometryResult)
  {
    && r.typ == e.typ && r.category == Classify(e).category
    && r.length == g.length && r.area == g.area && r.bounds == g.bounds
    && SingleOperation(r)
  }

  /** Each parsed element gives one result, at its position, describing it as classified and measured. */
  lemma {:induction false} DocumentResultsAt(f: Foreign, p: ParsedSvg)
    ensures |DocumentResults(f, p)| == |p.elements|
    ensures forall i :: 0 <= i < |p.elements| ==>
      Describes(DocumentResults(f, p)[i], p.elements[i], ElementGeometry(f, CalculatorFor(p), p.elements[i]))
  {
    var es := ClassifiedAll(p.elements);
    var c := CalculatorFor(p);
    ElementResultsAt(f, c, es);
    forall i | 0 <= i < |p.elements|
      ensures Describes(DocumentResults(f, p)[i], p.elements[i], ElementGeometry(f, c, p.elements[i]))
    {
      AtMostOneFlag(es[i]);
    }
  }

  /**
   * ElementCount is the number of parsed elements, and with one category per
   * element the cut, vector, raster and ignored counts add up to it.
   */
  lemma {:induction false} AnalysisCounts(f: Foreign, doc: SvgDocument)
    ensures Analysis(f, doc).elementCount == |Analysis(f, doc).elements| == |ParseDocument(f, doc).elements|
    ensures Analysis(f, doc).cutCount + Analysis(f, doc).vectorCount + Analysis(f, doc).rasterCount
      + Analysis(f, doc).ignoredCount == Analysis(f, doc).elementCount
  {
    var p := ParseDocument(f, doc);
    DocumentResultsAt(f, p);
    TalliesAddUp(DocumentResults(f, p));
  }

  /**
   * The reported bounds contain the box of every element of positive extent;
   * when no element has one they are the zero box.
   */
  lemma {:induction false} AnalysisBounds(f: Foreign, doc: SvgDocument)
    ensures forall i :: 0 <= i < |Analysis(f, doc).elements| && HasExtent(Analysis(f, doc).elements[i].bounds) ==>
      Encloses(Analysis(f, doc).bounds, Analysis(f, doc).elements[i].bounds)
    ensures (forall i :: 0 <= i < |Analysis(f, doc).elements| ==> !HasExtent(Analysis(f, doc).elements[i].bounds))
      ==> Analysis(f, doc).bounds == NoBounds
  {
    var rs := DocumentResults(f, ParseDocument(f, doc));
    GlobalBoundsEnclose(rs);
    GlobalBoundsExist(rs);
  }

  /** The summary's warnings: the given ones, then the no-standard-colours warning exactly when no element requests an operation. */
  lemma {:induction false} SummaryWarnings(width: real, height: real, parsed: seq<Warning>, rs: seq<ElementResult>)
    requires NoStandardColors !in parsed
    ensures |parsed| <= |Summary(width, height, parsed, rs).warnings|
    ensures Summary(width, height, parsed, rs).warnings[..|parsed|] == parsed
    ensures NoStandardColors in Summary(width, height, parsed, rs).warnings <==>
      forall i :: 0 <= i < |rs| ==> NoOperation(rs[i])
    ensures NoStandardColors in Summary(width, height, parsed, rs).warnings ==>
      Summary(width, height, parsed, rs).warnings == parsed + [NoStandardColors]
  {
    TallyZero(rs, CutOp);
    TallyZero(rs, VectorOp);
    TallyZero(rs, RasterOp);
    var ws := AnalysisWarnings(parsed, Tally(rs, CutOp), Tally(rs, VectorOp), Tally(rs, RasterOp));
    assert ws[..|parsed|] == parsed;
    if (forall i :: 0 <= i < |rs| ==> NoOperation(rs[i])) {
      assert ws == parsed + [NoStandardColors];
    } else {
      assert ws == parsed;
    }
  }

  /**
   * The parser's warnings come first; the no-standard-colours warning is added
   * after them, last, exactly when no element is cut, vector engraved or raster engraved.
   */
  lemma {:induction false} AnalysisWarningsOrder(f: Foreign, doc: SvgDocument)
    ensures |ParseDocument(f, doc).warnings| <= |Analysis(f, doc).warnings|
    ensures Analysis(f, doc).warnings[..|ParseDocument(f, doc).warnings|] == ParseDocument(f, doc).warnings
    ensures NoStandardColors in Analysis(f, doc).warnings <==>
      forall i :: 0 <= i < |Analysis(f, doc).elements| ==> NoOperation(Analysis(f, doc).elements[i])
    ensures NoStandardColors in Analysis(f, doc).warnings ==>
      Analysis(f, doc).warnings[|Analysis(f, doc).warnings| - 1] == NoStandardColors
  {
    var p := ParseDocument(f, doc);
    assert Analysis(f, doc) == AnalysisOf(f, p);
    ParsedWarningsStandard(f, doc);
    AnalysisOfWarnings(f, p);
  }

  /** AnalysisWarningsOrder for a parsed document without the no-standard-colours warning. */
  lemma {:induction false} AnalysisOfWarnings(f: Foreign, p: ParsedSvg)
    requires NoStandardColors !in p.warnings
    ensures |p.warnings| <= |AnalysisOf(f, p).warnings|
    ensures AnalysisOf(f, p).warnings[..|p.warnings|] == p.warnings
    ensures NoStandardColors in AnalysisOf(f, p).warnings <==>
      forall i :: 0 <= i < |AnalysisOf(f, p).elements| ==> NoOperation(AnalysisOf(f, p).elements[i])
    ensures NoStandardColors in AnalysisOf(f, p).warnings ==>
      AnalysisOf(f, p).warnings[|AnalysisOf(f, p).warnings| - 1] == NoStandardColors
  {
    var rs := DocumentResults(f, p);
    assert AnalysisOf(f, p).elements == rs;
    SummaryWarnings(p.width, p.height, p.warnings, rs);
  }

  // ---------------------------------------------------------------- the aggregation loop

  /** The running sums, counts and bounds of the analysis loop. */
  datatype Running = Running(
    cutLength: real,
    vectorLength: real,
    rasterArea: real,
    cutCount: nat,
    vectorCount: nat,
    rasterCount: nat,
    ignoredCount: nat,
    bounds: BoundingBox,
    boundsInit: bool)

  const Start: Running := Running(0.0, 0.0, 0.0, 0, 0, 0, 0, NoBounds, false)

  /** The running values are the sums, counts and bounds of the elements processed so far. */
  predicate Aggregates(a: Running, rs: seq<ElementResult>)
  {
    && a.cutLength == Total(rs, CutOp) && a.cutCount == Tally(rs, CutOp)
    && a.vectorLength == Total(rs, VectorOp) && a.vectorCount == Tally(rs, VectorOp)
    && a.rasterArea == Total(rs, RasterOp) && a.rasterCount == Tally(rs, RasterOp)
    && a.ignoredCount == IgnoredTally(rs)
    && (a.boundsInit <==> GlobalBounds(rs).Some?)
    && a.bounds == ReportedBounds(rs)
  }

  /** One pass of the loop: add the element to the sums and counts of its operations, and grow the bounds. */
  method Accumulate(a: Running, er: ElementResult, ghost rs: seq<ElementResult>) returns (b: Running)
    requires Aggregates(a, rs)
    ensures Aggregates(b, rs + [er])
  {
    var next := rs + [er];
    assert next[..|rs|] == rs && next[|rs|] == er;
    b := a;
    var hasAnyOperation := false;
    if er.hasCut {
      b := b.(cutLength := b.cutLength + er.length, cutCount := b.cutCount + 1);
      hasAnyOperation := true;
    }
    if er.hasVector {
      b := b.(vectorLength := b.vectorLength + er.length, vectorCount := b.vectorCount + 1);
      hasAnyOperation := true;
    }
    if er.hasRaster {
      b := b.(rasterArea := b.rasterArea + er.area, rasterCount := b.rasterCount + 1);
      hasAnyOperation := true;
    }
    if !hasAnyOperation {
      b := b.(ignoredCount := b.ignoredCount + 1);
    }
    if HasExtent(er.bounds) {
      if !b.boundsInit {
        b := b.(bounds := er.bounds, boundsInit := true);
      } else {
        b := b.(bounds := BoundingBox(Min(b.bounds.minX, er.bounds.minX), Min(b.bounds.minY, er.bounds.minY),
                                      Max(b.bounds.maxX, er.bounds.maxX), Max(b.bounds.maxY, er.bounds.maxY)));
      }
    }
  }

  /** The results of one element more are one result more. */
  lemma {:induction false} ElementResultsSnoc(f: Foreign, c: Calculator, es: seq<ClassifiedElement>, i: nat)
    requires i < |es|
    ensures ElementResults(f, c, es[..i + 1]) == ElementResults(f, c, es[..i]) + [ElementResultOf(es[i], ElementGeometry(f, c, es[i].raw))]
  {
    assert es[..i + 1][..i] == es[..i];
  }

  /** The loop over the classified elements: measure each, record it, and accumulate. */
  method AnalyzeElements(f: Foreign, calculator: Calculator, classified: seq<ClassifiedElement>)
    returns (elements: seq<ElementResult>, a: Running)
    ensures elements == ElementResults(f, calculator, classified)
    ensures Aggregates(a, elements)
  {
    elements := [];
    a := Start;
    for i := 0 to |classified|
      invariant elements == ElementResults(f, calculator, classified[..i])
      invariant Aggregates(a, elements)
    {
      var elem := classified[i];
      var geom := Calculate(f, calculator, elem.raw);
      var er := ElementResultOf(elem, geom);
      a := Accumulate(a, er, elements);
      elements := elements + [er];
      ElementResultsSnoc(f, calculator, classified, i);
    }
    assert classified[..|classified|] == classified;
  }

  /** Analyze: the error result and the parser's error, or the aggregated analysis. */
  method Analyze(f: Foreign, doc: Result<SvgDocument, string>) returns (result: AnalysisResult, err: Option<string>)
    ensures doc.Err? ==> err == Some(InvalidXmlPrefix + doc.error) && result == ErrorResult(InvalidXmlPrefix + doc.error)
    ensures doc.Ok? ==> err == None && result == Analysis(f, doc.value)
  {
    var parsed := Parse(f, doc);
    if parsed.Err? {
      return ErrorResult(parsed.error), Some(parsed.error);
    }
    var p := parsed.value;
    var classified := ClassifyAll(p.elements);
    var (scaleX, scaleY) := GetScaleFactor(p);
    var calculator := NewCalculator(scaleX, scaleY);
    assert calculator == CalculatorFor(p);
    var elements, a := AnalyzeElements(f, calculator, classified);
    assert elements == DocumentResults(f, p);

    var warnings := p.warnings;
    if a.cutCount == 0 && a.vectorCount == 0 && a.rasterCount == 0 {
      warnings := warnings + [NoStandardColors];
    }
    result := AnalysisResult(p.width, p.height, a.cutLength, a.vectorLength, a.rasterArea,
      |elements|, a.cutCount, a.vectorCount, a.rasterCount, a.ignoredCount, a.bounds, elements,
      warnings, StatusAnalyzed, "");
    err := None;
  }
}
