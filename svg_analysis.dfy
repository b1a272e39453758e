// The stored analysis of an uploaded drawing and its derived measures
// (internal/models/svg_analysis.go): working area, operation presence, and
// the complexity factor with the ten-step Newton square root it uses.
module SvgAnalyses {

  /** The aggregate columns of an analysis; identity, file and timestamps are not carried. */
  datatype SvgAnalysis = SvgAnalysis(
    width: real,
    height: real,
    cutLengthMM: real,
    vectorLengthMM: real,
    rasterAreaMM2: real,
    elementCount: int,
    cutCount: int,
    vectorCount: int,
    rasterCount: int,
    ignoredCount: int,
    boundsMinX: real,
    boundsMinY: real,
    boundsMaxX: real,
    boundsMaxY: real,
    status: string)
  {
    /** TotalArea: the area of the bounding box, never negative for an ordered box. */
    function TotalArea(): (area: real)
      ensures boundsMinX <= boundsMaxX && boundsMinY <= boundsMaxY ==> area >= 0.0
      ensures boundsMinX == boundsMaxX || boundsMinY == boundsMaxY ==> area == 0.0
    {
      (boundsMaxX - boundsMinX) * (boundsMaxY - boundsMinY)
    }

    predicate HasCutOperations()
    {
      cutLengthMM > 0.0
    }

    predicate HasEngraveOperations()
    {
      vectorLengthMM > 0.0 || rasterAreaMM2 > 0.0
    }

    /**
     * ComplexityFactor: cut plus vector length over the square root of the
     * working area; 0 for a box without area.
     */
    function ComplexityFactor(): (factor: real)
      ensures TotalArea() <= 0.0 ==> factor == 0.0
      ensures cutLengthMM >= 0.0 && vectorLengthMM >= 0.0 ==> factor >= 0.0
    {
      var area := TotalArea();
      if area <= 0.0 then 0.0
      else (cutLengthMM + vectorLengthMM) / NewtonSqrt(area)
    }
  }

  /** The number of Newton steps the square root takes. */
  const NewtonSteps: nat := 10

  /** `r` squared is at least `x`. */
  predicate SquareAtLeast(r: real, x: real)
  {
    r * r >= x
  }

  /** One Newton step towards the square root of `x` from the guess `z`. */
  function NewtonStep(z: real, x: real): real
    requires z != 0.0
  {
    z - (z * z - x) / (2.0 * z)
  }

  /**
   * From a positive guess a step stays positive and lands at or above the
   * square root, since its square exceeds `x` by (z² − x)² / (4z²).
   */
  lemma NewtonStepBounds(z: real, x: real)
    requires z > 0.0 && x > 0.0
    ensures NewtonStep(z, x) > 0.0
    ensures SquareAtLeast(NewtonStep(z, x), x)
  {
    var s := NewtonStep(z, x);
    var d := z * z - x;
    assert s * (2.0 * z) == z * z + x;
    assert s > 0.0;
    assert (s * (2.0 * z)) * (s * (2.0 * z)) == (z * z + x) * (z * z + x);
    assert (z * z + x) * (z * z + x) == d * d + 4.0 * (z * z) * x;
    assert 4.0 * (z * z) * (s * s) == d * d + 4.0 * (z * z) * x;
    assert d * d >= 0.0;
    assert 4.0 * (z * z) * (s * s - x) >= 0.0;
    assert z * z > 0.0;
  }

  /** `n` Newton steps from `z`. */
  function NewtonIterate(z: real, x: real, n: nat): (r: real)
    requires z > 0.0 && x > 0.0
    ensures r > 0.0
    ensures n > 0 ==> SquareAtLeast(r, x)
    decreases n
  {
    if n == 0 then z
    else
      NewtonStepBounds(z, x);
      NewtonIterate(NewtonStep(z, x), x, n - 1)
  }

  /**
   * The package's own square root: 0 for non-positive input, otherwise ten
   * Newton steps from x/2. No step divides by zero, and the result is
   * positive with a square no smaller than the input.
   */
  function NewtonSqrt(x: real): (r: real)
    ensures x <= 0.0 ==> r == 0.0
    ensures x > 0.0 ==> r > 0.0 && SquareAtLeast(r, x)
  {
    if x <= 0.0 then 0.0 else NewtonIterate(x / 2.0, x, NewtonSteps)
  }

  /** The loop of the square root, updating its guess in place. */
  method Sqrt(x: real) returns (z: real)
    ensures z == NewtonSqrt(x)
  {
    if x <= 0.0 {
      return 0.0;
    }
    z := x / 2.0;
    for i := 0 to NewtonSteps
      invariant z > 0.0
      invariant NewtonIterate(z, x, NewtonSteps - i) == NewtonSqrt(x)
    {
      NewtonStepBounds(z, x);
      z := z - (z * z - x) / (2.0 * z);
    }
  }
}
