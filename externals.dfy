// The library calls of the drawing engine whose results the model takes as
// given: IEEE math, decimal parsing, XML unmarshalling and the regular
// expression scanners. They are passed in as values, so every property
// proved holds for whatever these calls return, subject only to `Sane`.
module Externals {
  import opened Common

  /** One match of the path-data tokenizer: a command letter and its numeric arguments. */
  datatype PathCommand = PathCommand(cmd: char, args: seq<real>)

  /** The root `<svg>` element as encoding/xml unmarshals it. */
  datatype SvgDocument = SvgDocument(width: string, height: string, viewBox: string, innerXml: string)

  datatype Foreign = Foreign(
    /** math.Sqrt */
    sqrt: real -> real,
    /** math.Pi */
    pi: real,
    /** strconv.ParseFloat(s, 64); None when it reports an error */
    parseFloat: string -> Option<real>,
    /** geometry.go parseNumbers: every number token of a string that ParseFloat accepts, in order */
    parseNumbers: string -> seq<real>,
    /** geometry.go pathToPoints' tokenizer: command letters with the numbers that follow them */
    pathCommands: string -> seq<PathCommand>,
    /** parser.go extractElements' tag pattern plus parseAttributes: the attribute map of
        every tag of the given element type in the inner XML, in document order */
    tagAttributes: (string, string) -> seq<map<string, string>>
  )

  /** The only facts assumed about the foreign math: a square root that is never
      negative and a positive pi. */
  ghost predicate Sane(f: Foreign)
  {
    f.pi > 0.0
    && (forall x: real :: f.sqrt(x) >= 0.0)
  }

  /**
   * Floating-point division where the divisor may be zero. IEEE gives an
   * infinity or NaN there, which reals cannot hold; the model yields 0.
   */
  function FloatDiv(a: real, b: real): real
  {
    if b == 0.0 then 0.0 else a / b
  }
}
