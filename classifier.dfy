// The colour classifier: the laser operation each element stands for, read
// from its stroke and fill colours (red stroke cuts, blue stroke engraves
// vectors, black fill engraves raster).
module Classifier {
  import opened Common
  import opened GoStrings
  import SvgParser

  /** models.ElementCategory */
  datatype Category = Cut | Vector | Raster | Ignored

  function CategoryName(c: Category): string
  {
    match c
    case Cut => "cut"
    case Vector => "vector"
    case Raster => "raster"
    case Ignored => "ignored"
  }

  datatype Rgb = Rgb(r: int, g: int, b: int)

  /** Per-channel tolerance of a colour match (about 10% of 255). */
  const ColorTolerance: int := 25

  const Red: Rgb := Rgb(255, 0, 0)
  const Blue: Rgb := Rgb(0, 0, 255)
  const Black: Rgb := Rgb(0, 0, 0)

  /**
   * A classified element. The three operation flags the analyzer reads are
   * derived from the single category, so at most one of them holds.
   */
  datatype ClassifiedElement = ClassifiedElement(
    raw: SvgParser.RawElement,
    category: Category,
    strokeColor: Option<string>,
    fillColor: Option<string>
  )
  {
    predicate HasCut() { category == Cut }
    predicate HasVector() { category == Vector }
    predicate HasRaster() { category == Raster }
  }

  lemma {:induction false} AtMostOneFlag(e: ClassifiedElement)
    ensures !(e.HasCut() && e.HasVector()) && !(e.HasCut() && e.HasRaster()) && !(e.HasVector() && e.HasRaster())
    ensures e.category == Ignored <==> !e.HasCut() && !e.HasVector() && !e.HasRaster()
  {
  }

  // ---------------------------------------------------------------- colour attributes

  /** The position after the run of `\s` characters starting at q. */
  function SkipSpaces(t: string, q: nat): (e: nat)
    requires q <= |t|
    ensures q <= e <= |t|
    decreases |t| - q
  {
    if q < |t| && IsRegexSpace(t[q]) then SkipSpaces(t, q + 1) else q
  }

  /** The prefix before the first ';'. */
  function UntilSemicolon(s: string): (r: string)
    ensures r <= s && ';' !in r
    ensures |r| < |s| ==> s[|r|] == ';'
  {
    if |s| == 0 || s[0] == ';' then [] else [s[0]] + UntilSemicolon(s[1..])
  }

  /**
   * The declaration `name\s*:\s*([^;]+)`, matched case-insensitively at
   * position p of an inline style, yields the trimmed value up to the next
   * ';'. The capture needs one character that is not ';' after the colon;
   * a run of spaces alone is captured and trims to "".
   */
  function StyleMatchAt(style: string, name: string, p: nat): (v: Option<string>)
    requires p <= |style|
  {
    if p + |name| > |style| || !EqualFold(style[p..p + |name|], name) then None
    else
      var colon := SkipSpaces(style, p + |name|);
      if colon + 1 < |style| && style[colon] == ':' && style[colon + 1] != ';'
      then Some(TrimSpace(UntilSemicolon(style[colon + 1..])))
      else None
  }

  /** The leftmost declaration of `name` in the style, searching from position p. */
  function FirstStyleMatch(style: string, name: string, p: nat): (q: Option<nat>)
    requires p <= |style|
    ensures q.Some? ==> p <= q.value <= |style| && StyleMatchAt(style, name, q.value).Some?
    ensures q.Some? ==> forall j :: p <= j < q.value ==> StyleMatchAt(style, name, j).None?
    ensures q.None? ==> forall j :: p <= j <= |style| ==> StyleMatchAt(style, name, j).None?
    decreases |style| - p
  {
    if StyleMatchAt(style, name, p).Some? then Some(p)
    else if p == |style| then None
    else FirstStyleMatch(style, name, p + 1)
  }

  /**
   * getColorAttribute: the trimmed attribute when present (even if empty),
   * else the leftmost matching declaration of the inline style, else "".
   */
  function ColorAttribute(attrs: map<string, string>, name: string): (v: string)
    ensures name in attrs ==> v == TrimSpace(attrs[name])
    ensures name !in attrs && "style" !in attrs ==> v == ""
    ensures name !in attrs && "style" in attrs ==>
      match FirstStyleMatch(attrs["style"], name, 0)
      case None => v == ""
      case Some(q) => Some(v) == StyleMatchAt(attrs["style"], name, q)
  {
    if name in attrs then TrimSpace(attrs[name])
    else if "style" in attrs then
      match FirstStyleMatch(attrs["style"], name, 0)
      case None => ""
      case Some(q) => StyleMatchAt(attrs["style"], name, q).value
    else ""
  }

  // ---------------------------------------------------------------- colour parsing

  const NamedColors: map<string, Rgb> := map[
    "red" := Rgb(255, 0, 0), "blue" := Rgb(0, 0, 255), "black" := Rgb(0, 0, 0),
    "white" := Rgb(255, 255, 255), "green" := Rgb(0, 128, 0), "yellow" := Rgb(255, 255, 0),
    "cyan" := Rgb(0, 255, 255), "magenta" := Rgb(255, 0, 255)]

  function NamedColor(s: string): Option<Rgb>
  {
    if s in NamedColors then Some(NamedColors[s]) else None
  }

  predicate IsHexDigit(c: char)
  {
    '0' <= c <= '9' || 'a' <= c <= 'f' || 'A' <= c <= 'F'
  }

  function HexValue(c: char): (v: nat)
    requires IsHexDigit(c)
    ensures v < 16
  {
    if '0' <= c <= '9' then c as int - '0' as int
    else if 'a' <= c <= 'f' then c as int - 'a' as int + 10
    else c as int - 'A' as int + 10
  }

  /** strconv.ParseInt(s, 16, 64) on a two-character string: an optional sign, then hex digits. */
  function ParseHexPair(s: string): (v: Option<int>)
    requires |s| == 2
    ensures IsHexDigit(s[0]) && IsHexDigit(s[1]) ==> v == Some(16 * HexValue(s[0]) + HexValue(s[1]))
    ensures v.Some? ==> -15 <= v.value <= 255
  {
    if (s[0] == '+' || s[0] == '-') && IsHexDigit(s[1]) then
      Some(if s[0] == '-' then -(HexValue(s[1]) as int) else HexValue(s[1]))
    else if IsHexDigit(s[0]) && IsHexDigit(s[1]) then Some(16 * HexValue(s[0]) + HexValue(s[1]))
    else None
  }

  /** The digits after '#': three are doubled to six, and six are read as three pairs. */
  function HexColor(hex: string): Option<Rgb>
  {
    var h := if |hex| == 3 then [hex[0], hex[0], hex[1], hex[1], hex[2], hex[2]] else hex;
    if |h| != 6 then None
    else
      match (ParseHexPair(h[0..2]), ParseHexPair(h[2..4]), ParseHexPair(h[4..6]))
      case (Some(r), Some(g), Some(b)) => Some(Rgb(r, g, b))
      case _ => None
  }

  /** The position after the run of decimal digits starting at q. */
  function SkipDigits(t: string, q: nat): (e: nat)
    requires q <= |t|
    ensures q <= e <= |t|
    decreases |t| - q
  {
    if q < |t| && IsDigit(t[q]) then SkipDigits(t, q + 1) else q
  }

  /** strconv.Atoi on a run of digits: a value beyond int64 reads as the largest int64. */
  function DigitsValue(ds: string): (v: int)
    ensures 0 <= v <= MaxInt64
    ensures AllDigits(ds) && DecimalValue(ds) <= MaxInt64 ==> v == DecimalValue(ds)
  {
    if !AllDigits(ds) then 0
    else if DecimalValue(ds) <= MaxInt64 then DecimalValue(ds) else MaxInt64
  }

  /** One channel of `rgb(...)`: spaces, digits, spaces, then the expected separator. */
  function Channel(t: string, q: nat, sep: char): (r: Option<(int, nat)>)
    requires q <= |t|
    ensures r.Some? ==> r.value.1 <= |t|
  {
    var d := SkipSpaces(t, q);
    var e := SkipDigits(t, d);
    var s := SkipSpaces(t, e);
    if e > d && s < |t| && t[s] == sep then
      Some((DigitsValue(t[d..e]), s + 1))
    else None
  }

  /** The pattern `rgb\s*\(\s*(\d+)\s*,\s*(\d+)\s*,\s*(\d+)\s*\)` matched at position p. */
  function RgbAt(t: string, p: nat): Option<Rgb>
    requires p <= |t|
  {
    if !(p + 3 <= |t| && t[p] == 'r' && t[p + 1] == 'g' && t[p + 2] == 'b') then None
    else
      var open := SkipSpaces(t, p + 3);
      if !(open < |t| && t[open] == '(') then None
      else Channels(t, open + 1)
  }

  /** The three channels of `rgb(...)`, read from position q on. */
  function Channels(t: string, q: nat): Option<Rgb>
    requires q <= |t|
  {
    match Channel(t, q, ',')
    case None => None
    case Some((r, q1)) =>
      match Channel(t, q1, ',')
      case None => None
      case Some((g, q2)) =>
        match Channel(t, q2, ')')
        case None => None
        case Some((b, _)) => Some(Rgb(r, g, b))
  }

  /** The leftmost `rgb(...)` match from position p on. */
  function FirstRgb(t: string, p: nat): Option<Rgb>
    requires p <= |t|
    decreases |t| - p
  {
    if RgbAt(t, p).Some? then RgbAt(t, p)
    else if p == |t| then None
    else FirstRgb(t, p + 1)
  }

  /** The colour formats tried, in order, on a trimmed lower-case colour. */
  function ParseLowered(t: string): (c: Option<Rgb>)
    ensures t == "" || t == "none" || t == "transparent" ==> c.None?
    ensures t in NamedColors ==> c == Some(NamedColors[t])
  {
    if t == "" || t == "none" || t == "transparent" then None
    else if NamedColor(t).Some? then NamedColor(t)
    else if t[0] == '#' && HexColor(t[1..]).Some? then HexColor(t[1..])
    else FirstRgb(t, 0)
  }

  /** parseColor: named colours, `#rgb`, `#rrggbb`, then the first `rgb(r, g, b)`. */
  function ParseColor(s: string): Option<Rgb>
  {
    ParseLowered(TrimSpace(ToLower(s)))
  }

  /** isColorMatch: every channel within the tolerance, bounds included. */
  predicate IsColorMatch(color: Rgb, target: Rgb)
  {
    Abs(color.r - target.r) <= ColorTolerance
    && Abs(color.g - target.g) <= ColorTolerance
    && Abs(color.b - target.b) <= ColorTolerance
  }

  function Abs(x: int): int { if x < 0 then -x else x }

  lemma {:induction false} ColorMatchReflexiveSymmetric(a: Rgb, b: Rgb)
    ensures IsColorMatch(a, a)
    ensures IsColorMatch(a, b) <==> IsColorMatch(b, a)
  {
  }

  lemma {:induction false} UntilSemicolonWhole(s: string)
    requires ';' !in s
    ensures UntilSemicolon(s) == s
  {
    if s != [] {
      UntilSemicolonWhole(s[1..]);
    }
  }

  /** A style that opens with `name:value` (value free of ';') yields the trimmed value. */
  lemma {:induction false} StyleLeadingDeclaration(attrs: map<string, string>, name: string, v: string)
    requires name !in attrs && "style" in attrs && attrs["style"] == name + ":" + v
    requires v != [] && ';' !in v
    ensures ColorAttribute(attrs, name) == TrimSpace(v)
  {
    var style := attrs["style"];
    assert style[0..|name|] == name;
    assert style[|name|] == ':';
    assert SkipSpaces(style, |name|) == |name|;
    assert style[|name| + 1..] == v;
    UntilSemicolonWhole(v);
    assert StyleMatchAt(style, name, 0) == Some(TrimSpace(v));
  }

  /** `#rgb` is `#rrggbb` with every digit doubled: each channel is 17 times the digit. */
  lemma {:induction false} ShortHexDoubles(a: char, b: char, c: char)
    requires IsHexDigit(a) && IsHexDigit(b) && IsHexDigit(c)
    ensures HexColor([a, b, c]) == HexColor([a, a, b, b, c, c])
    ensures HexColor([a, b, c]) == Some(Rgb(17 * HexValue(a), 17 * HexValue(b), 17 * HexValue(c)))
  {
    var h := [a, a, b, b, c, c];
    assert h[0..2] == [a, a] && h[2..4] == [b, b] && h[4..6] == [c, c];
  }

  /** The names are read in lower case: "Red" is red. */
  lemma {:induction false} ParseCapitalisedRed()
    ensures ParseColor("Red") == Some(Red)
  {
    assert ToLower("Red") == "red";
    TrimSpaceUnchanged("red");
  }

  /** Colour names and hex digits are read case-insensitively. */
  lemma {:induction false} ParseColorIgnoresCase(s: string)
    ensures ParseColor(ToLower(s)) == ParseColor(s)
  {
    ToLowerIdempotent(s);
  }

  lemma {:induction false} SkipSpacesExact(t: string, q: nat, k: nat)
    requires q + k <= |t| && (forall j :: q <= j < q + k ==> IsRegexSpace(t[j]))
    requires q + k == |t| || !IsRegexSpace(t[q + k])
    ensures SkipSpaces(t, q) == q + k
    decreases k
  {
    if k > 0 {
      SkipSpacesExact(t, q + 1, k - 1);
    }
  }

  lemma {:induction false} SkipDigitsExact(t: string, q: nat, k: nat)
    requires q + k <= |t| && (forall j :: q <= j < q + k ==> IsDigit(t[j]))
    requires q + k == |t| || !IsDigit(t[q + k])
    ensures SkipDigits(t, q) == q + k
    decreases k
  {
    if k > 0 {
      SkipDigitsExact(t, q + 1, k - 1);
    }
  }

  /** The digits ds sit at position d of t, followed by sep. */
  predicate DigitsThen(t: string, d: nat, ds: string, sep: char)
  {
    d + |ds| < |t| && t[d..d + |ds|] == ds && t[d + |ds|] == sep
  }

  /** A channel of k (at most one) spaces, the digits ds, and the separator reads as ds. */
  lemma {:induction false} ChannelReads(t: string, q: nat, k: nat, ds: string, sep: char, next: nat)
    requires q + k <= |t| && k <= 1 && next == q + k + |ds| + 1
    requires k == 1 ==> t[q] == ' '
    requires DigitsThen(t, q + k, ds, sep) && ds != [] && AllDigits(ds)
    requires !IsDigit(sep) && !IsRegexSpace(sep)
    ensures Channel(t, q, sep) == Some((DigitsValue(ds), next))
  {
    var d := q + k;
    var e := d + |ds|;
    assert t[d] == ds[0];
    SkipSpacesExact(t, q, k);
    assert forall j :: d <= j < e ==> t[j] == ds[j - d];
    SkipDigitsExact(t, d, |ds|);
    SkipSpacesExact(t, e, 0);
  }

  /** The CSS functional notation `rgb(r, g, b)` over three digit strings. */
  function RgbNotation(r: string, g: string, b: string): string
  {
    "rgb(" + r + ", " + g + ", " + b + ")"
  }

  /** A colour in the notation, its channels written in decimal. */
  function RgbText(r: nat, g: nat, b: nat): string
  {
    RgbNotation(NatToString(r), NatToString(g), NatToString(b))
  }

  /** The layout of `rgb(R, G, B)`: R ends at a1, G at a2 and B at a3. */
  predicate RgbLayout(t: string, R: string, G: string, B: string, a1: nat, a2: nat, a3: nat)
  {
    && a1 == 4 + |R| && a2 == a1 + 2 + |G| && a3 == a2 + 2 + |B| && |t| == a3 + 1
    && t[0] == 'r' && t[1] == 'g' && t[2] == 'b' && t[3] == '('
    && DigitsThen(t, 4, R, ',') && t[a1 + 1] == ' '
    && DigitsThen(t, a1 + 2, G, ',') && t[a2 + 1] == ' '
    && DigitsThen(t, a2 + 2, B, ')')
  }

  lemma {:induction false} RgbNotationShape(R: string, G: string, B: string)
    ensures RgbLayout(RgbNotation(R, G, B), R, G, B, 4 + |R|, 6 + |R| + |G|, 8 + |R| + |G| + |B|)
  {
  }

  /** In a string laid out as `rgb(R, G, B)` the channels read R, G and B. */
  lemma {:induction false} RgbAtReads(t: string, R: string, G: string, B: string, a1: nat, a2: nat, a3: nat)
    requires R != [] && G != [] && B != [] && AllDigits(R) && AllDigits(G) && AllDigits(B)
    requires RgbLayout(t, R, G, B, a1, a2, a3)
    ensures Channels(t, 4) == Some(Rgb(DigitsValue(R), DigitsValue(G), DigitsValue(B)))
  {
    ChannelReads(t, 4, 0, R, ',', a1 + 1);
    ChannelReads(t, a1 + 1, 1, G, ',', a2 + 1);
    ChannelReads(t, a2 + 1, 1, B, ')', a3 + 1);
    ChannelsInTurn(t, 4, DigitsValue(R), a1 + 1, DigitsValue(G), a2 + 1, DigitsValue(B));
  }

  /** Three channels read in turn make the colour. */
  lemma {:induction false} ChannelsInTurn(t: string, q: nat, r: int, q1: nat, g: int, q2: nat, b: int)
    requires q <= |t| && q1 <= |t| && q2 <= |t|
    requires Channel(t, q, ',') == Some((r, q1))
    requires Channel(t, q1, ',') == Some((g, q2))
    requires Channel(t, q2, ')').Some? && Channel(t, q2, ')').value.0 == b
    ensures Channels(t, q) == Some(Rgb(r, g, b))
  {
  }

  /** The notation matches the rgb() pattern at its start and yields the three values. */
  lemma {:induction false} RgbNotationMatches(R: string, G: string, B: string)
    requires R != [] && G != [] && B != [] && AllDigits(R) && AllDigits(G) && AllDigits(B)
    ensures RgbAt(RgbNotation(R, G, B), 0) == Some(Rgb(DigitsValue(R), DigitsValue(G), DigitsValue(B)))
  {
    var t := RgbNotation(R, G, B);
    RgbNotationShape(R, G, B);
    RgbAtReads(t, R, G, B, 4 + |R|, 6 + |R| + |G|, 8 + |R| + |G| + |B|);
    assert SkipSpaces(t, 3) == 3;
  }

  /** The notation over digit strings is already lower case. */
  lemma {:induction false} RgbNotationLower(R: string, G: string, B: string)
    requires AllDigits(R) && AllDigits(G) && AllDigits(B)
    ensures ToLower(RgbNotation(R, G, B)) == RgbNotation(R, G, B)
  {
    var t := RgbNotation(R, G, B);
    var a1 := 4 + |R|;
    var a2 := a1 + 2 + |G|;
    var a3 := a2 + 2 + |B|;
    forall i | 0 <= i < |t|
      ensures LowerRune(t[i]) == t[i]
    {
      if 4 <= i < a1 { assert t[i] == R[i - 4]; }
      else if a1 + 2 <= i < a2 { assert t[i] == G[i - a1 - 2]; }
      else if a2 + 2 <= i < a3 { assert t[i] == B[i - a2 - 2]; }
    }
    ToLowerFixed(t);
  }

  /** A colour already trimmed and in lower case goes straight to the format tests. */
  lemma {:induction false} ParseColorOfCanonical(t: string)
    requires ToLower(t) == t && TrimSpace(t) == t
    ensures ParseColor(t) == ParseLowered(t)
  {
  }

  /** What starts with the rgb() pattern and is no colour name reads as that pattern. */
  lemma {:induction false} ParseLoweredRgb(t: string)
    requires 7 < |t| && t[0] == 'r' && RgbAt(t, 0).Some?
    ensures ParseLowered(t) == RgbAt(t, 0)
  {
    assert t !in NamedColors;
  }

  /** The notation over digit strings parses to the values of the digits. */
  lemma {:induction false} RgbNotationParses(R: string, G: string, B: string)
    requires R != [] && G != [] && B != [] && AllDigits(R) && AllDigits(G) && AllDigits(B)
    ensures ParseColor(RgbNotation(R, G, B)) == Some(Rgb(DigitsValue(R), DigitsValue(G), DigitsValue(B)))
  {
    var t := RgbNotation(R, G, B);
    RgbNotationLower(R, G, B);
    RgbNotationShape(R, G, B);
    TrimSpaceUnchanged(t);
    ParseColorOfCanonical(t);
    RgbNotationMatches(R, G, B);
    ParseLoweredRgb(t);
  }

  /** A written rgb() colour parses back to its channels. */
  lemma {:induction false} RgbRoundTrip(r: nat, g: nat, b: nat)
    requires r <= MaxInt64 && g <= MaxInt64 && b <= MaxInt64
    ensures ParseColor(RgbText(r, g, b)) == Some(Rgb(r, g, b))
  {
    RgbNotationParses(NatToString(r), NatToString(g), NatToString(b));
    NatToStringValue(r);
    NatToStringValue(g);
    NatToStringValue(b);
  }

  // ---------------------------------------------------------------- classification

  /** Whether the named colour attribute parses to a colour matching the target. */
  predicate ColorMatches(attrs: map<string, string>, name: string, target: Rgb)
  {
    var s := ColorAttribute(attrs, name);
    s != "" && s != "none" && ParseColor(s).Some? && IsColorMatch(ParseColor(s).value, target)
  }

  /** Classify: Cut for a red stroke, else Vector for a blue stroke, else Raster for a black fill. */
  function CategoryOf(attrs: map<string, string>): Category
  {
    if ColorMatches(attrs, "stroke", Red) then Cut
    else if ColorMatches(attrs, "stroke", Blue) then Vector
    else if ColorMatches(attrs, "fill", Black) then Raster
    else Ignored
  }

  function ColorOf(attrs: map<string, string>, name: string): Option<string>
  {
    var s := ColorAttribute(attrs, name);
    if s != "" then Some(s) else None
  }

  function Classify(e: SvgParser.RawElement): (c: ClassifiedElement)
    ensures c.raw == e
  {
    ClassifiedElement(e, CategoryOf(e.attributes), ColorOf(e.attributes, "stroke"), ColorOf(e.attributes, "fill"))
  }

  /** The classification priority, and the colours kept when their attribute is non-empty. */
  lemma {:induction false} ClassifyPriority(e: SvgParser.RawElement)
    ensures var c := Classify(e);
      && c.strokeColor == (var s := ColorAttribute(e.attributes, "stroke"); if s != "" then Some(s) else None)
      && c.fillColor == (var s := ColorAttribute(e.attributes, "fill"); if s != "" then Some(s) else None)
      && (c.HasCut() <==> ColorMatches(e.attributes, "stroke", Red))
      && (c.HasVector() <==> !ColorMatches(e.attributes, "stroke", Red) && ColorMatches(e.attributes, "stroke", Blue))
      && (c.HasRaster() <==>
            !ColorMatches(e.attributes, "stroke", Red) && !ColorMatches(e.attributes, "stroke", Blue)
            && ColorMatches(e.attributes, "fill", Black))
  {
  }

  /** f applied to every element, in order. */
  function MapAll<A, B>(f: A -> B, xs: seq<A>): seq<B>
  {
    if xs == [] then [] else MapAll(f, xs[..|xs| - 1]) + [f(xs[|xs| - 1])]
  }

  lemma {:induction false} MapAllAt<A, B>(f: A -> B, xs: seq<A>)
    ensures |MapAll(f, xs)| == |xs|
    ensures forall i :: 0 <= i < |xs| ==> MapAll(f, xs)[i] == f(xs[i])
  {
    if xs != [] {
      MapAllAt(f, xs[..|xs| - 1]);
    }
  }

  /** The classification of every element, in order. */
  function ClassifiedAll(es: seq<SvgParser.RawElement>): (r: seq<ClassifiedElement>)
    ensures |r| == |es| && forall i :: 0 <= i < |es| ==> r[i] == Classify(es[i])
  {
    MapAllAt(Classify, es);
    MapAll(Classify, es)
  }

  /** ClassifyAll: one classified element per raw element, in order. */
  method ClassifyAll(elements: seq<SvgParser.RawElement>) returns (result: seq<ClassifiedElement>)
    ensures result == ClassifiedAll(elements)
    ensures |result| == |elements| && forall i :: 0 <= i < |elements| ==> result[i] == Classify(elements[i])
  {
    result := [];
    for i := 0 to |elements|
      invariant result == ClassifiedAll(elements[..i])
    {
      assert elements[..i + 1][..i] == elements[..i];
      result := result + [Classify(elements[i])];
    }
    assert elements[..|elements|] == elements;
  }

  /** The number of elements of a category among the first n. */
  function CountOf(es: seq<ClassifiedElement>, n: nat, cat: Category): (k: nat)
    requires n <= |es|
    ensures k <= n
  {
    if n == 0 then 0 else CountOf(es, n - 1, cat) + (if es[n - 1].category == cat then 1 else 0)
  }

  lemma {:induction false} CountsSumToLength(es: seq<ClassifiedElement>, n: nat)
    requires n <= |es|
    ensures CountOf(es, n, Cut) + CountOf(es, n, Vector) + CountOf(es, n, Raster) + CountOf(es, n, Ignored) == n
  {
    if n > 0 {
      CountsSumToLength(es, n - 1);
    }
  }

  method CountByCategory(elements: seq<ClassifiedElement>) returns (cut: nat, vector: nat, raster: nat, ignored: nat)
    ensures cut == CountOf(elements, |elements|, Cut) && vector == CountOf(elements, |elements|, Vector)
    ensures raster == CountOf(elements, |elements|, Raster) && ignored == CountOf(elements, |elements|, Ignored)
    ensures cut + vector + raster + ignored == |elements|
  {
    cut, vector, raster, ignored := 0, 0, 0, 0;
    for i := 0 to |elements|
      invariant cut == CountOf(elements, i, Cut) && vector == CountOf(elements, i, Vector)
      invariant raster == CountOf(elements, i, Raster) && ignored == CountOf(elements, i, Ignored)
    {
      match elements[i].category
      case Cut => cut := cut + 1;
      case Vector => vector := vector + 1;
      case Raster => raster := raster + 1;
      case Ignored => ignored := ignored + 1;
    }
    CountsSumToLength(elements, |elements|);
  }
}
