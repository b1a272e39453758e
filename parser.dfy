// SVG structural parsing: document size in millimetres, the viewBox, the
// viewBox-to-millimetre scale, and the drawable elements in type order.
module SvgParser {
  import opened Common
  import opened GoStrings
  import opened Externals

  /** A drawable element as extracted from the markup. */
  datatype RawElement = RawElement(typ: string, id: string, attributes: map<string, string>)

  datatype ViewBox = ViewBox(minX: real, minY: real, width: real, height: real, valid: bool)

  datatype ParsedSvg = ParsedSvg(
    width: real,
    height: real,
    viewBox: ViewBox,
    elements: seq<RawElement>,
    warnings: seq<Warning>)

  /** The parser's settings: lengths without a unit are millimetres, pixels are at 96 dpi. */
  const DefaultUnit: string := "mm"
  const Dpi: real := 96.0
  const DefaultDimension: real := 100.0

  /** The element types extracted, in extraction order. */
  const ElementTypes: seq<string> := ["path", "rect", "circle", "ellipse", "line", "polyline", "polygon"]

  const InvalidXmlPrefix: string := "invalid SVG XML: "

  /** The non-fatal warnings of parsing and analysis; each stands for its fixed message. */
  datatype Warning = NoWidth | NoHeight | NoElements | NoStandardColors

  function WarningText(w: Warning): string
  {
    match w
    case NoWidth => "No width specified, using default 100mm"
    case NoHeight => "No height specified, using default 100mm"
    case NoElements => "No drawable elements found in SVG"
    case NoStandardColors => "No elements with standard colors found (red stroke=cut, blue stroke=vector, black fill=raster)"
  }

  const ZeroViewBox: ViewBox := ViewBox(0.0, 0.0, 0.0, 0.0, false)

  // ---------------------------------------------------------------- viewBox

  /** The separator class `[\s,]` of the viewBox split. */
  predicate IsViewBoxSeparator(c: char)
  {
    IsRegexSpace(c) || c == ','
  }

  predicate SeparatorFree(s: string)
  {
    forall i :: 0 <= i < |s| ==> !IsViewBoxSeparator(s[i])
  }

  /** The length of the longest prefix without a separator. */
  function PartLength(s: string): (k: nat)
    ensures k <= |s| && SeparatorFree(s[..k])
    ensures k < |s| ==> IsViewBoxSeparator(s[k])
  {
    if |s| == 0 || IsViewBoxSeparator(s[0]) then 0
    else
      var k := 1 + PartLength(s[1..]);
      assert s[..k] == [s[0]] + s[1..][..k - 1];
      k
  }

  /** The length of the longest prefix of separators. */
  function SeparatorRunLength(s: string): (k: nat)
    ensures k <= |s|
    ensures forall i :: 0 <= i < k ==> IsViewBoxSeparator(s[i])
    ensures k < |s| ==> !IsViewBoxSeparator(s[k])
  {
    if |s| == 0 || !IsViewBoxSeparator(s[0]) then 0 else 1 + SeparatorRunLength(s[1..])
  }

  /**
   * regexp `[\s,]+` Split(s, -1): the text between maximal separator runs,
   * with an empty part before a leading run and after a trailing one, and
   * [""] for the empty string.
   */
  function SplitViewBox(s: string): (parts: seq<string>)
    ensures |parts| >= 1
    ensures forall i :: 0 <= i < |parts| ==> SeparatorFree(parts[i])
    decreases |s|
  {
    var k := PartLength(s);
    if k == |s| then
      assert s[..k] == s;
      [s]
    else
      var rest := s[k..];
      var e := SeparatorRunLength(rest);
      [s[..k]] + SplitViewBox(rest[e..])
  }

  /** The parts a viewBox attribute splits into. */
  function ViewBoxParts(viewBox: string): seq<string>
  {
    SplitViewBox(TrimSpace(viewBox))
  }

  /**
   * The viewBox read from its split parts. The fields are assigned one after
   * the other, so the ones read before a part that fails to parse keep their
   * values while Valid stays false.
   */
  function ViewBoxOfParts(f: Foreign, parts: seq<string>): (vb: ViewBox)
    ensures vb.valid <==>
      |parts| == 4 && f.parseFloat(parts[0]).Some? && f.parseFloat(parts[1]).Some?
      && f.parseFloat(parts[2]).Some? && f.parseFloat(parts[3]).Some?
    ensures vb.valid ==>
      vb == ViewBox(f.parseFloat(parts[0]).value, f.parseFloat(parts[1]).value,
                    f.parseFloat(parts[2]).value, f.parseFloat(parts[3]).value, true)
  {
    if |parts| != 4 then ZeroViewBox
    else
      var x := f.parseFloat(parts[0]);
      var y := f.parseFloat(parts[1]);
      var w := f.parseFloat(parts[2]);
      var h := f.parseFloat(parts[3]);
      if x.None? then ZeroViewBox
      else if y.None? then ViewBox(x.value, 0.0, 0.0, 0.0, false)
      else if w.None? then ViewBox(x.value, y.value, 0.0, 0.0, false)
      else if h.None? then ViewBox(x.value, y.value, w.value, 0.0, false)
      else ViewBox(x.value, y.value, w.value, h.value, true)
  }

  /** parseViewBox: the empty attribute gives the zero, invalid viewBox. */
  function ParseViewBox(f: Foreign, viewBox: string): (vb: ViewBox)
    ensures viewBox == "" ==> vb == ZeroViewBox
    ensures viewBox != "" ==> vb == ViewBoxOfParts(f, ViewBoxParts(viewBox))
  {
    if viewBox == "" then ZeroViewBox else ViewBoxOfParts(f, ViewBoxParts(viewBox))
  }

  /** Joining separator-free parts with a run of separators and splitting gives the parts back. */
  lemma {:induction false} SplitViewBoxOfJoin(parts: seq<string>, sep: string)
    requires |parts| >= 1
    requires forall i :: 0 <= i < |parts| ==> SeparatorFree(parts[i])
    requires |sep| > 0 && forall i :: 0 <= i < |sep| ==> IsViewBoxSeparator(sep[i])
    requires forall i :: 1 <= i < |parts| ==> |parts[i]| > 0
    ensures SplitViewBox(Join(parts, sep)) == parts
    decreases |parts|
  {
    var p0 := parts[0];
    PartLengthOfFreeThenSeparator(p0, []);
    if |parts| == 1 {
      assert p0 + [] == p0;
    } else {
      var j := Join(parts[1..], sep);
      var s := Join(parts, sep);
      assert s == p0 + (sep + j);
      assert sep[0] == (sep + j)[0];
      PartLengthOfFreeThenSeparator(p0, sep + j);
      assert s[..|p0|] == p0;
      var rest := s[|p0|..];
      assert rest == sep + j;
      JoinEnds(parts[1..], sep);
      SeparatorRunOfSeparatorsThenPart(sep, j);
      assert rest[|sep|..] == j;
      SplitViewBoxOfJoin(parts[1..], sep);
    }
  }

  lemma {:induction false} PartLengthOfFreeThenSeparator(p: string, rest: string)
    requires SeparatorFree(p)
    requires rest == [] || IsViewBoxSeparator(rest[0])
    ensures PartLength(p + rest) == |p|
    decreases |p|
  {
    if |p| > 0 {
      assert (p + rest)[1..] == p[1..] + rest;
      PartLengthOfFreeThenSeparator(p[1..], rest);
    }
  }

  lemma {:induction false} SeparatorRunOfSeparatorsThenPart(sep: string, j: string)
    requires forall i :: 0 <= i < |sep| ==> IsViewBoxSeparator(sep[i])
    requires j == [] || !IsViewBoxSeparator(j[0])
    ensures SeparatorRunLength(sep + j) == |sep|
    decreases |sep|
  {
    if |sep| > 0 {
      assert (sep + j)[1..] == sep[1..] + j;
      SeparatorRunOfSeparatorsThenPart(sep[1..], j);
    } else {
      assert sep + j == j;
    }
  }

  /** A viewBox written as four numbers separated by spaces or commas is valid. */
  lemma {:induction false} ViewBoxOfFourNumbers(f: Foreign, parts: seq<string>, sep: string)
    requires |parts| == 4
    requires forall i :: 0 <= i < 4 ==> |parts[i]| > 0 && SeparatorFree(parts[i])
    requires forall i :: 0 <= i < 4 ==> !IsSpace(parts[i][0]) && !IsSpace(parts[i][|parts[i]| - 1])
    requires forall i :: 0 <= i < 4 ==> f.parseFloat(parts[i]).Some?
    requires |sep| > 0 && forall i :: 0 <= i < |sep| ==> IsViewBoxSeparator(sep[i])
    ensures ParseViewBox(f, Join(parts, sep)).valid
    ensures ParseViewBox(f, Join(parts, sep)).width == f.parseFloat(parts[2]).value
  {
    JoinEnds(parts, sep);
    TrimSpaceUnchanged(Join(parts, sep));
    SplitViewBoxOfJoin(parts, sep);
    assert ViewBoxParts(Join(parts, sep)) == parts;
  }

  // ---------------------------------------------------------------- lengths

  predicate IsNumberChar(c: char)
  {
    IsDigit(c) || c == '.'
  }

  /** The length of the longest prefix matching `[\d.]*`. */
  function NumberLength(s: string): (k: nat)
    ensures k <= |s|
    ensures forall i :: 0 <= i < k ==> IsNumberChar(s[i])
    ensures k < |s| ==> !IsNumberChar(s[k])
  {
    if |s| == 0 || !IsNumberChar(s[0]) then 0 else 1 + NumberLength(s[1..])
  }

  /** The units the length pattern accepts after the number. */
  datatype LengthUnit = Millimetre | Centimetre | Inch | Point | Pixel | Percent

  /** The unit a suffix names; a missing unit is the default, millimetres. */
  function UnitOf(suffix: string): (u: Option<LengthUnit>)
    ensures u == Some(Millimetre) <==> suffix == "" || suffix == "mm"
    ensures u == Some(Centimetre) <==> suffix == "cm"
    ensures u == Some(Inch) <==> suffix == "in"
    ensures u == Some(Point) <==> suffix == "pt"
    ensures u == Some(Pixel) <==> suffix == "px"
    ensures u == Some(Percent) <==> suffix == "%"
  {
    if |suffix| == 0 then Some(Millimetre)
    else if |suffix| == 1 then (if suffix[0] == '%' then Some(Percent) else None)
    else if |suffix| != 2 then None
    else if suffix[0] == 'm' && suffix[1] == 'm' then Some(Millimetre)
    else if suffix[0] == 'c' && suffix[1] == 'm' then Some(Centimetre)
    else if suffix[0] == 'i' && suffix[1] == 'n' then Some(Inch)
    else if suffix[0] == 'p' && suffix[1] == 't' then Some(Point)
    else if suffix[0] == 'p' && suffix[1] == 'x' then Some(Pixel)
    else None
  }

  /**
   * The conversion of a number in `unit` to millimetres: mm unchanged,
   * cm ×10, in ×25.4, pt ×25.4/72, px ×25.4/96, and % of the fallback.
   */
  function ToMillimetres(num: real, unit: LengthUnit, fallback: real): real
  {
    match unit
    case Millimetre => num
    case Centimetre => num * 10.0
    case Inch => num * 25.4
    case Point => num * 25.4 / 72.0
    case Pixel => num * 25.4 / Dpi
    case Percent => fallback * num / 100.0
  }

  /**
   * parseLength: a length attribute `^([\d.]+)(mm|cm|in|pt|px|%)?$` in
   * millimetres, or `fallback` when the attribute is empty, does not match
   * or its number does not parse.
   */
  function ParseLength(f: Foreign, value: string, fallback: real): (r: real)
    ensures value == "" ==> r == fallback
    ensures |TrimSpace(value)| > 0 && !IsNumberChar(TrimSpace(value)[0]) ==> r == fallback
  {
    if value == "" then fallback
    else
      var v := TrimSpace(value);
      var k := NumberLength(v);
      if k == 0 then fallback
      else
        match UnitOf(v[k..])
        case None => fallback
        case Some(unit) =>
          match f.parseFloat(v[..k])
          case None => fallback
          case Some(num) => ToMillimetres(num, unit, fallback)
  }

  lemma {:induction false} NumberLengthOfNumberThenUnit(n: string, unit: string)
    requires forall i :: 0 <= i < |n| ==> IsNumberChar(n[i])
    requires unit == [] || !IsNumberChar(unit[0])
    ensures NumberLength(n + unit) == |n|
    decreases |n|
  {
    if |n| > 0 {
      assert (n + unit)[1..] == n[1..] + unit;
      NumberLengthOfNumberThenUnit(n[1..], unit);
    }
  }

  /** The number and unit a well-formed length splits into, read through TrimSpace. */
  lemma {:induction false} ParseLengthOfNumberAndUnit(f: Foreign, n: string, suffix: string, fallback: real)
    requires |n| > 0 && forall i :: 0 <= i < |n| ==> IsNumberChar(n[i])
    requires suffix == [] || (!IsNumberChar(suffix[0]) && !IsSpace(suffix[|suffix| - 1]))
    ensures UnitOf(suffix).None? ==> ParseLength(f, n + suffix, fallback) == fallback
    ensures f.parseFloat(n).None? ==> ParseLength(f, n + suffix, fallback) == fallback
    ensures UnitOf(suffix).Some? && f.parseFloat(n).Some? ==>
      ParseLength(f, n + suffix, fallback) == ToMillimetres(f.parseFloat(n).value, UnitOf(suffix).value, fallback)
  {
    var v := n + suffix;
    assert v[0] == n[0];
    assert v[|v| - 1] == if suffix == [] then n[|n| - 1] else suffix[|suffix| - 1];
    TrimSpaceUnchanged(v);
    NumberLengthOfNumberThenUnit(n, suffix);
    assert v[..|n|] == n && v[|n|..] == suffix;
  }

  // ---------------------------------------------------------------- document size

  /** The dimension Parse settles on: the attribute, else the viewBox's, else 100. */
  function Dimension(attribute: real, vb: ViewBox, vbDimension: real): real
  {
    if attribute != 0.0 then attribute
    else if vb.valid && vbDimension != 0.0 then vbDimension
    else DefaultDimension
  }

  /** Whether a dimension fell through to the 100 mm default. */
  predicate Defaulted(attribute: real, vb: ViewBox, vbDimension: real)
  {
    attribute == 0.0 && !(vb.valid && vbDimension != 0.0)
  }

  /** The elements of one type: the non-empty attribute maps, with their id. */
  function ElementsOfType(typ: string, maps: seq<map<string, string>>): (es: seq<RawElement>)
    ensures |es| <= |maps|
    ensures forall i :: 0 <= i < |es| ==> es[i].typ == typ && |es[i].attributes| > 0
    ensures forall i :: 0 <= i < |es| ==> es[i].id == MapGet(es[i].attributes, "id", "")
  {
    if |maps| == 0 then []
    else
      var prefix := ElementsOfType(typ, maps[..|maps| - 1]);
      var m := maps[|maps| - 1];
      if |m| == 0 then prefix else prefix + [RawElement(typ, MapGet(m, "id", ""), m)]
  }

  /** extractElements over the given types: each type's elements, type after type. */
  function Extracted(f: Foreign, innerXml: string, types: seq<string>): seq<RawElement>
  {
    if |types| == 0 then []
    else
      Extracted(f, innerXml, types[..|types| - 1])
      + ElementsOfType(types[|types| - 1], f.tagAttributes(innerXml, types[|types| - 1]))
  }

  /** The position of an element type in the extraction order. */
  function TypeRank(typ: string): int
  {
    if typ == "path" then 0
    else if typ == "rect" then 1
    else if typ == "circle" then 2
    else if typ == "ellipse" then 3
    else if typ == "line" then 4
    else if typ == "polyline" then 5
    else if typ == "polygon" then 6
    else 7
  }

  lemma {:induction false} ElementTypeRanks()
    ensures forall k :: 0 <= k < |ElementTypes| ==> TypeRank(ElementTypes[k]) == k
  {
    assert TypeRank(ElementTypes[0]) == 0;
    assert TypeRank(ElementTypes[1]) == 1;
    assert TypeRank(ElementTypes[2]) == 2;
    assert TypeRank(ElementTypes[3]) == 3;
    assert TypeRank(ElementTypes[4]) == 4;
    assert TypeRank(ElementTypes[5]) == 5;
    assert TypeRank(ElementTypes[6]) == 6;
  }

  /**
   * Elements grouped by type in the extraction order, every type among the
   * first `n` element types; each has a non-empty attribute map whose "id"
   * entry is its id.
   */
  predicate GroupedByType(es: seq<RawElement>, n: int)
  {
    && (forall i :: 0 <= i < |es| ==>
          && 0 <= TypeRank(es[i].typ) < n
          && es[i].typ in ElementTypes
          && |es[i].attributes| > 0
          && es[i].id == MapGet(es[i].attributes, "id", ""))
    && (forall i, j :: 0 <= i < j < |es| ==> TypeRank(es[i].typ) <= TypeRank(es[j].typ))
  }

  lemma {:induction false} GroupedByTypeAppend(olds: seq<RawElement>, news: seq<RawElement>, typ: string, n: int)
    requires GroupedByType(olds, n - 1)
    requires typ in ElementTypes && TypeRank(typ) == n - 1
    requires forall i :: 0 <= i < |news| ==> news[i].typ == typ && |news[i].attributes| > 0
    requires forall i :: 0 <= i < |news| ==> news[i].id == MapGet(news[i].attributes, "id", "")
    ensures GroupedByType(olds + news, n)
  {
    var es := olds + news;
    forall i | 0 <= i < |es|
      ensures && 0 <= TypeRank(es[i].typ) < n
              && es[i].typ in ElementTypes
              && |es[i].attributes| > 0
              && es[i].id == MapGet(es[i].attributes, "id", "")
    {
      if i < |olds| {
        assert es[i] == olds[i];
      } else {
        assert es[i] == news[i - |olds|];
      }
    }
    forall i, j | 0 <= i < j < |es|
      ensures TypeRank(es[i].typ) <= TypeRank(es[j].typ)
    {
      if j < |olds| {
        assert es[i] == olds[i] && es[j] == olds[j];
      } else if i < |olds| {
        assert es[i] == olds[i] && es[j] == news[j - |olds|];
      } else {
        assert es[i] == news[i - |olds|] && es[j] == news[j - |olds|];
      }
    }
  }

  /** The extracted elements come grouped by type in the fixed order path,
      rect, circle, ellipse, line, polyline, polygon. */
  lemma {:induction false} ExtractedGroupedByType(f: Foreign, innerXml: string, n: nat)
    requires n <= |ElementTypes|
    ensures GroupedByType(Extracted(f, innerXml, ElementTypes[..n]), n)
  {
    if n > 0 {
      ExtractedGroupedByType(f, innerXml, n - 1);
      ElementTypeRanks();
      assert ElementTypes[..n][..n - 1] == ElementTypes[..n - 1];
      var typ := ElementTypes[n - 1];
      assert ElementTypes[..n][n - 1] == typ;
      var news := ElementsOfType(typ, f.tagAttributes(innerXml, typ));
      assert Extracted(f, innerXml, ElementTypes[..n])
        == Extracted(f, innerXml, ElementTypes[..n - 1]) + news;
      GroupedByTypeAppend(Extracted(f, innerXml, ElementTypes[..n - 1]), news, typ, n);
    }
  }

  /** The elements of one type: the non-empty attribute maps, in match order. */
  method ExtractOfType(typ: string, matches: seq<map<string, string>>) returns (news: seq<RawElement>)
    ensures news == ElementsOfType(typ, matches)
  {
    news := [];
    var j := 0;
    while j < |matches|
      invariant 0 <= j <= |matches|
      invariant news == ElementsOfType(typ, matches[..j])
    {
      var attrs := matches[j];
      assert matches[..j + 1][..j] == matches[..j];
      if |attrs| != 0 {
        news := news + [RawElement(typ, MapGet(attrs, "id", ""), attrs)];
      }
      j := j + 1;
    }
    assert matches[..j] == matches;
  }

  /** extractElements: one pass per element type, keeping the non-empty attribute maps. */
  method ExtractElements(f: Foreign, innerXml: string) returns (elements: seq<RawElement>)
    ensures elements == Extracted(f, innerXml, ElementTypes)
  {
    elements := [];
    var t := 0;
    while t < |ElementTypes|
      invariant 0 <= t <= |ElementTypes|
      invariant elements == Extracted(f, innerXml, ElementTypes[..t])
    {
      var typ := ElementTypes[t];
      var news := ExtractOfType(typ, f.tagAttributes(innerXml, typ));
      elements := elements + news;
      assert ElementTypes[..t + 1][..t] == ElementTypes[..t];
      t := t + 1;
    }
    assert ElementTypes[..t] == ElementTypes;
  }

  /** The warnings of Parse, in the order it appends them. */
  function DocumentWarnings(widthDefaulted: bool, heightDefaulted: bool, noElements: bool): seq<Warning>
  {
    AppendIf(AppendIf(AppendIf([], widthDefaulted, NoWidth), heightDefaulted, NoHeight), noElements, NoElements)
  }

  /** `ws` with `w` appended when `condition` holds. */
  function AppendIf(ws: seq<Warning>, condition: bool, w: Warning): seq<Warning>
  {
    if condition then ws + [w] else ws
  }

  /** One warning per defaulted dimension, and the no-elements warning last. */
  lemma {:induction false} DocumentWarningsContents(widthDefaulted: bool, heightDefaulted: bool, noElements: bool)
    ensures var w := DocumentWarnings(widthDefaulted, heightDefaulted, noElements);
      && (NoWidth in w <==> widthDefaulted)
      && (NoHeight in w <==> heightDefaulted)
      && (NoElements in w <==> noElements)
      && NoStandardColors !in w
      && (noElements ==> w[|w| - 1] == NoElements)
  {
  }

  /** The outcome of Parse on an unmarshalled document. */
  function ParseDocument(f: Foreign, doc: SvgDocument): ParsedSvg
  {
    var vb := ParseViewBox(f, doc.viewBox);
    var w := ParseLength(f, doc.width, vb.width);
    var h := ParseLength(f, doc.height, vb.height);
    var elements := Extracted(f, doc.innerXml, ElementTypes);
    ParsedSvg(
      Dimension(w, vb, vb.width),
      Dimension(h, vb, vb.height),
      vb,
      elements,
      DocumentWarnings(Defaulted(w, vb, vb.width), Defaulted(h, vb, vb.height), |elements| == 0))
  }

  /**
   * Width and height are never 0: each is the parsed attribute, else the
   * viewBox size, else 100 mm with one warning per defaulted dimension; the
   * no-elements warning comes last, exactly when nothing was extracted.
   */
  lemma {:induction false} ParseDocumentDimensions(f: Foreign, doc: SvgDocument)
    ensures var p := ParseDocument(f, doc);
      var vb := ParseViewBox(f, doc.viewBox);
      var w := ParseLength(f, doc.width, vb.width);
      var h := ParseLength(f, doc.height, vb.height);
      && p.width != 0.0 && p.height != 0.0
      && (w != 0.0 ==> p.width == w)
      && (w == 0.0 && vb.valid && vb.width != 0.0 ==> p.width == vb.width)
      && (Defaulted(w, vb, vb.width) ==> p.width == 100.0)
      && (h != 0.0 ==> p.height == h)
      && (h == 0.0 && vb.valid && vb.height != 0.0 ==> p.height == vb.height)
      && (Defaulted(h, vb, vb.height) ==> p.height == 100.0)
  {
  }

  /** One warning per defaulted dimension; the no-elements warning comes last, exactly when nothing was extracted. */
  lemma {:induction false} ParseDocumentWarnings(f: Foreign, doc: SvgDocument)
    ensures var p := ParseDocument(f, doc);
      var vb := ParseViewBox(f, doc.viewBox);
      var w := ParseLength(f, doc.width, vb.width);
      var h := ParseLength(f, doc.height, vb.height);
      && (NoWidth in p.warnings <==> Defaulted(w, vb, vb.width))
      && (NoHeight in p.warnings <==> Defaulted(h, vb, vb.height))
      && (NoElements in p.warnings <==> |p.elements| == 0)
      && (|p.elements| == 0 ==> p.warnings[|p.warnings| - 1] == NoElements)
  {
    var vb := ParseViewBox(f, doc.viewBox);
    var w := ParseLength(f, doc.width, vb.width);
    var h := ParseLength(f, doc.height, vb.height);
    DocumentWarningsContents(Defaulted(w, vb, vb.width), Defaulted(h, vb, vb.height),
      |Extracted(f, doc.innerXml, ElementTypes)| == 0);
  }

  /** The parser never emits the analyzer's no-standard-colours warning. */
  lemma {:induction false} ParsedWarningsStandard(f: Foreign, doc: SvgDocument)
    ensures NoStandardColors !in ParseDocument(f, doc).warnings
  {
    var vb := ParseViewBox(f, doc.viewBox);
    var w := ParseLength(f, doc.width, vb.width);
    var h := ParseLength(f, doc.height, vb.height);
    DocumentWarningsContents(Defaulted(w, vb, vb.width), Defaulted(h, vb, vb.height),
      |Extracted(f, doc.innerXml, ElementTypes)| == 0);
  }

  /** Parse: an XML error, or the document's size, viewBox, elements and warnings. */
  method Parse(f: Foreign, doc: Result<SvgDocument, string>) returns (r: Result<ParsedSvg, string>)
    ensures doc.Err? ==> r == Err(InvalidXmlPrefix + doc.error)
    ensures doc.Ok? ==> r == Ok(ParseDocument(f, doc.value))
  {
    if doc.Err? {
      return Err(InvalidXmlPrefix + doc.error);
    }
    var d := doc.value;
    var viewBox := ParseViewBox(f, d.viewBox);
    var width := ParseLength(f, d.width, viewBox.width);
    var height := ParseLength(f, d.height, viewBox.height);
    var warnings: seq<Warning> := [];
    ghost var w0, h0 := width, height;
    if width == 0.0 && viewBox.valid {
      width := viewBox.width;
    }
    if height == 0.0 && viewBox.valid {
      height := viewBox.height;
    }
    ghost var widthDefaulted := Defaulted(w0, viewBox, viewBox.width);
    ghost var heightDefaulted := Defaulted(h0, viewBox, viewBox.height);
    if width == 0.0 {
      width := DefaultDimension;
      warnings := warnings + [NoWidth];
    }
    assert width == Dimension(w0, viewBox, viewBox.width);
    assert warnings == AppendIf([], widthDefaulted, NoWidth);
    if height == 0.0 {
      height := DefaultDimension;
      warnings := warnings + [NoHeight];
    }
    assert height == Dimension(h0, viewBox, viewBox.height);
    assert warnings == AppendIf(AppendIf([], widthDefaulted, NoWidth), heightDefaulted, NoHeight);
    var elements := ExtractElements(f, d.innerXml);
    if |elements| == 0 {
      warnings := warnings + [NoElements];
    }
    assert warnings == DocumentWarnings(widthDefaulted, heightDefaulted, |elements| == 0);
    r := Ok(ParsedSvg(width, height, viewBox, elements, warnings));
  }

  /**
   * GetScaleFactor: (1, 1) without a usable viewBox; otherwise the factors
   * that map the viewBox extent onto the document size.
   */
  function GetScaleFactor(p: ParsedSvg): (s: (real, real))
    ensures !p.viewBox.valid || p.viewBox.width == 0.0 || p.viewBox.height == 0.0 ==> s == (1.0, 1.0)
    ensures p.viewBox.valid && p.viewBox.width != 0.0 && p.viewBox.height != 0.0 ==>
      s.0 * p.viewBox.width == p.width && s.1 * p.viewBox.height == p.height
  {
    if !p.viewBox.valid || p.viewBox.width == 0.0 || p.viewBox.height == 0.0 then (1.0, 1.0)
    else (p.width / p.viewBox.width, p.height / p.viewBox.height)
  }
}
