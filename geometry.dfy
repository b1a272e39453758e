// The geometry calculator of the drawing engine: measures of each SVG
// element type in millimetres, the path-data interpreter, Bezier
// flattening, the shoelace area and bounding boxes.
module Geometry {
  import opened Common
  import opened GoStrings
  import opened Externals
  import SvgParser

  datatype Point = Point(x: real, y: real)

  datatype BoundingBox = BoundingBox(minX: real, minY: real, maxX: real, maxY: real)

  /** Length, area, perimeter, bounds and the flattened points of one element. */
  datatype GeometryResult = GeometryResult(
    length: real,
    area: real,
    perimeter: real,
    bounds: BoundingBox,
    points: seq<Point>
  )

  /** The calculator's settings: viewBox-to-mm scales and the Bezier flatness tolerance. */
  datatype Calculator = Calculator(scaleX: real, scaleY: real, precision: real)

  /** The zero GeometryResult{} returned for elements that cannot be measured. */
  const Zero: GeometryResult := GeometryResult(0.0, 0.0, 0.0, BoundingBox(0.0, 0.0, 0.0, 0.0), [])

  /** Flatness tolerance of the Bezier subdivision, in mm. */
  const Precision: real := 0.1

  /** Depth bound standing in for the float convergence of the subdivision. */
  const SubdivisionDepth: nat := 32

  /** Distance above which closing a path adds the start point again. */
  const CloseEpsilon: real := 0.01

  function NewCalculator(scaleX: real, scaleY: real): (c: Calculator)
    ensures c.scaleX == scaleX && c.scaleY == scaleY && c.precision == Precision
  {
    Calculator(scaleX, scaleY, Precision)
  }

  // ---------------------------------------------------------------- helpers

  function Min(a: real, b: real): real { if a <= b then a else b }

  function Max(a: real, b: real): real { if a >= b then a else b }

  function Abs(a: real): real { if a < 0.0 then -a else a }

  predicate Ordered(b: BoundingBox)
  {
    b.minX <= b.maxX && b.minY <= b.maxY
  }

  predicate Contains(b: BoundingBox, p: Point)
  {
    b.minX <= p.x <= b.maxX && b.minY <= p.y <= b.maxY
  }

  predicate Encloses(outer: BoundingBox, inner: BoundingBox)
  {
    outer.minX <= inner.minX && outer.minY <= inner.minY
    && inner.maxX <= outer.maxX && inner.maxY <= outer.maxY
  }

  /** The attribute read as a number; a missing or unparsable value reads as 0. */
  function AttrFloat(f: Foreign, attrs: map<string, string>, key: string): real
  {
    f.parseFloat(TrimSpace(MapGet(attrs, key, ""))).GetOr(0.0)
  }

  function Distance(f: Foreign, p1: Point, p2: Point): real
  {
    f.sqrt((p2.x - p1.x) * (p2.x - p1.x) + (p2.y - p1.y) * (p2.y - p1.y))
  }

  function Midpoint(p1: Point, p2: Point): (m: Point)
    ensures m.x - p1.x == p2.x - m.x && m.y - p1.y == p2.y - m.y
  {
    Point((p1.x + p2.x) / 2.0, (p1.y + p2.y) / 2.0)
  }

  /** Distance from p to the closest point of the segment from a to b. */
  function PointToLineDistance(f: Foreign, p: Point, a: Point, b: Point): real
  {
    var dx := b.x - a.x;
    var dy := b.y - a.y;
    if dx == 0.0 && dy == 0.0 then Distance(f, p, a)
    else
      var t := FloatDiv((p.x - a.x) * dx + (p.y - a.y) * dy, dx * dx + dy * dy);
      var t' := Max(0.0, Min(1.0, t));
      Distance(f, p, Point(a.x + t' * dx, a.y + t' * dy))
  }

  /** The box grown to take in one more point. */
  function ExpandBounds(b: BoundingBox, p: Point): (r: BoundingBox)
    ensures Contains(r, p) && Encloses(r, b)
    ensures Ordered(b) ==> Ordered(r)
    ensures Contains(b, p) ==> r == b
  {
    BoundingBox(Min(b.minX, p.x), Min(b.minY, p.y), Max(b.maxX, p.x), Max(b.maxY, p.y))
  }

  // ---------------------------------------------------------------- Bezier flattening

  /**
   * De Casteljau subdivision of a cubic Bezier curve until both control
   * points lie within the tolerance of the chord (or the depth runs out).
   */
  function SubdivideCubic(f: Foreign, p0: Point, p1: Point, p2: Point, p3: Point, tolerance: real, depth: nat): (r: seq<Point>)
    ensures |r| >= 2 && r[0] == p0 && r[|r| - 1] == p3
    decreases depth
  {
    if depth == 0
      || (PointToLineDistance(f, p1, p0, p3) < tolerance && PointToLineDistance(f, p2, p0, p3) < tolerance)
    then [p0, p3]
    else
      var p01 := Midpoint(p0, p1);
      var p12 := Midpoint(p1, p2);
      var p23 := Midpoint(p2, p3);
      var p012 := Midpoint(p01, p12);
      var p123 := Midpoint(p12, p23);
      var p0123 := Midpoint(p012, p123);
      var left := SubdivideCubic(f, p0, p01, p012, p0123, tolerance, depth - 1);
      var right := SubdivideCubic(f, p0123, p123, p23, p3, tolerance, depth - 1);
      left + right[1..]
  }

  /** A curve whose control points both lie within the tolerance of the chord flattens to the chord. */
  lemma {:induction false} FlatCurveIsChord(f: Foreign, p0: Point, p1: Point, p2: Point, p3: Point, tolerance: real, depth: nat)
    requires PointToLineDistance(f, p1, p0, p3) < tolerance && PointToLineDistance(f, p2, p0, p3) < tolerance
    ensures SubdivideCubic(f, p0, p1, p2, p3, tolerance, depth) == [p0, p3]
  {
  }

  function CubicBezier(f: Foreign, c: Calculator, p0: Point, p1: Point, p2: Point, p3: Point): (r: seq<Point>)
    ensures |r| >= 2 && r[0] == p0 && r[|r| - 1] == p3
  {
    SubdivideCubic(f, p0, p1, p2, p3, c.precision, SubdivisionDepth)
  }

  /**
   * A control point of the cubic that traces the same curve as a quadratic:
   * two thirds of the way from an end point toward the quadratic's control.
   */
  function TwoThirdsToward(from: Point, toward: Point): (q: Point)
    ensures 3.0 * (q.x - from.x) == 2.0 * (toward.x - from.x)
    ensures 3.0 * (q.y - from.y) == 2.0 * (toward.y - from.y)
  {
    Point(from.x + 2.0 / 3.0 * (toward.x - from.x), from.y + 2.0 / 3.0 * (toward.y - from.y))
  }

  /** A quadratic Bezier flattened as its degree-elevated cubic. */
  function QuadraticBezier(f: Foreign, c: Calculator, p0: Point, p1: Point, p2: Point): (r: seq<Point>)
    ensures |r| >= 2 && r[0] == p0 && r[|r| - 1] == p2
  {
    CubicBezier(f, c, p0, TwoThirdsToward(p0, p1), TwoThirdsToward(p2, p1), p2)
  }

  // ---------------------------------------------------------------- path data

  /** The interpreter's registers between path commands. */
  datatype PathState = PathState(
    points: seq<Point>,
    current: Point,
    start: Point,
    lastControl: Point,
    /** The previous command letter as written; '\0' before the first. */
    lastCmd: char
  )

  const InitialState: PathState := PathState([], Point(0.0, 0.0), Point(0.0, 0.0), Point(0.0, 0.0), '\0')

  predicate IsRelative(cmd: char) { 'a' <= cmd <= 'z' }

  /** The command letter in upper case, as the interpreter subtracts 32 from lower-case ones. */
  function UpperCommand(cmd: char): char
  {
    if IsRelative(cmd) then (cmd as int - 32) as char else cmd
  }

  /** The numbers one segment of each command consumes; 0 for Z and unknown letters. */
  function Arity(up: char): nat
  {
    match up
    case 'M' => 2 case 'L' => 2 case 'H' => 1 case 'V' => 1
    case 'C' => 6 case 'S' => 4 case 'Q' => 4 case 'T' => 2 case 'A' => 7
    case _ => 0
  }

  function Scaled(c: Calculator, x: real, y: real): Point
  {
    Point(x * c.scaleX, y * c.scaleY)
  }

  /** A point given relative to `origin` when `relative` holds. */
  function Offset(p: Point, relative: bool, origin: Point): Point
  {
    if relative then Point(p.x + origin.x, p.y + origin.y) else p
  }

  /** The mirror image of `control` through `pivot`. */
  function Reflect(control: Point, pivot: Point): (r: Point)
    ensures Midpoint(control, r) == pivot
  {
    Point(2.0 * pivot.x - control.x, 2.0 * pivot.y - control.y)
  }

  predicate FollowsCubic(lastCmd: char) { lastCmd in {'C', 'S', 'c', 's'} }

  predicate FollowsQuadratic(lastCmd: char) { lastCmd in {'Q', 'T', 'q', 't'} }

  /**
   * One segment of a drawing command: the numbers in `a` starting at
   * offset `i` of the command's argument list.
   */
  function Segment(f: Foreign, c: Calculator, up: char, rel: bool, i: nat, a: seq<real>, s: PathState): PathState
    requires Arity(up) > 0 && |a| == Arity(up)
  {
    match up
    case 'M' =>
      var p := Offset(Scaled(c, a[0], a[1]), rel && (i > 0 || |s.points| > 0), s.current);
      s.(points := s.points + [p], current := p, start := if i == 0 then p else s.start)
    case 'L' =>
      var p := Offset(Scaled(c, a[0], a[1]), rel, s.current);
      s.(points := s.points + [p], current := p)
    case 'H' =>
      var p := Point(if rel then a[0] * c.scaleX + s.current.x else a[0] * c.scaleX, s.current.y);
      s.(points := s.points + [p], current := p)
    case 'V' =>
      var p := Point(s.current.x, if rel then a[0] * c.scaleY + s.current.y else a[0] * c.scaleY);
      s.(points := s.points + [p], current := p)
    case 'C' =>
      var cp1 := Offset(Scaled(c, a[0], a[1]), rel, s.current);
      var cp2 := Offset(Scaled(c, a[2], a[3]), rel, s.current);
      var end := Offset(Scaled(c, a[4], a[5]), rel, s.current);
      CubicTo(f, c, s, cp1, cp2, end)
    case 'S' =>
      var cp1 := if FollowsCubic(s.lastCmd) then Reflect(s.lastControl, s.current) else s.current;
      var cp2 := Offset(Scaled(c, a[0], a[1]), rel, s.current);
      var end := Offset(Scaled(c, a[2], a[3]), rel, s.current);
      CubicTo(f, c, s, cp1, cp2, end)
    case 'Q' =>
      var cp := Offset(Scaled(c, a[0], a[1]), rel, s.current);
      var end := Offset(Scaled(c, a[2], a[3]), rel, s.current);
      QuadraticTo(f, c, s, cp, end)
    case 'T' =>
      var cp := if FollowsQuadratic(s.lastCmd) then Reflect(s.lastControl, s.current) else s.current;
      var end := Offset(Scaled(c, a[0], a[1]), rel, s.current);
      QuadraticTo(f, c, s, cp, end)
    case 'A' =>
      var end := Offset(Scaled(c, a[5], a[6]), rel, s.current);
      s.(points := s.points + [end], current := end)
  }

  /** A cubic curve from the current point: its flattened points after the first, ending at `end`. */
  function CubicTo(f: Foreign, c: Calculator, s: PathState, cp1: Point, cp2: Point, end: Point): PathState
  {
    s.(points := s.points + CubicBezier(f, c, s.current, cp1, cp2, end)[1..], current := end, lastControl := cp2)
  }

  /** A quadratic curve from the current point: its flattened points after the first, ending at `end`. */
  function QuadraticTo(f: Foreign, c: Calculator, s: PathState, cp: Point, end: Point): PathState
  {
    s.(points := s.points + QuadraticBezier(f, c, s.current, cp, end)[1..], current := end, lastControl := cp)
  }

  /** Every whole segment of a command's arguments from offset i on; leftover numbers are ignored. */
  function Segments(f: Foreign, c: Calculator, up: char, rel: bool, args: seq<real>, i: nat, s: PathState): PathState
    decreases |args| - i
  {
    if Arity(up) == 0 || i + Arity(up) > |args| then s
    else Segments(f, c, up, rel, args, i + Arity(up), Segment(f, c, up, rel, i, args[i..i + Arity(up)], s))
  }

  /** Z: back to the start, drawing the closing point only if it is not already there. */
  function ClosePath(f: Foreign, s: PathState): (r: PathState)
    ensures r.current == s.start && r.start == s.start && r.lastControl == s.lastControl
    ensures r.points == if |s.points| > 0 && Distance(f, s.current, s.start) > CloseEpsilon
                        then s.points + [s.start] else s.points
  {
    var closing := |s.points| > 0 && Distance(f, s.current, s.start) > CloseEpsilon;
    s.(points := if closing then s.points + [s.start] else s.points, current := s.start)
  }

  /** One path command; the letter as written becomes the last command. */
  function Command(f: Foreign, c: Calculator, pc: PathCommand, s: PathState): PathState
  {
    var up := UpperCommand(pc.cmd);
    var after := if up == 'Z' then ClosePath(f, s) else Segments(f, c, up, IsRelative(pc.cmd), pc.args, 0, s);
    after.(lastCmd := pc.cmd)
  }

  /** The commands from index k on. */
  function Commands(f: Foreign, c: Calculator, cmds: seq<PathCommand>, k: nat, s: PathState): PathState
    decreases |cmds| - k
  {
    if k >= |cmds| then s else Commands(f, c, cmds, k + 1, Command(f, c, cmds[k], s))
  }

  /** The points a path's data flattens to. */
  function PathPoints(f: Foreign, c: Calculator, d: string): seq<Point>
  {
    Commands(f, c, f.pathCommands(d), 0, InitialState).points
  }

  /**
   * pathToPoints: runs the path commands in order, keeping the current
   * point, the subpath start, the last control point and the last command
   * letter, and appending every point drawn.
   */
  method PathToPoints(f: Foreign, c: Calculator, d: string) returns (points: seq<Point>)
    ensures points == PathPoints(f, c, d)
  {
    points := [];
    var current, start, lastControl := Point(0.0, 0.0), Point(0.0, 0.0), Point(0.0, 0.0);
    var lastCmd := '\0';
    var cmds := f.pathCommands(d);
    var k := 0;
    while k < |cmds|
      invariant k <= |cmds|
      invariant Commands(f, c, cmds, k, PathState(points, current, start, lastControl, lastCmd))
             == Commands(f, c, cmds, 0, InitialState)
    {
      points, current, start, lastControl :=
        RunCommand(f, c, cmds[k], points, current, start, lastControl, lastCmd);
      lastCmd := cmds[k].cmd;
      k := k + 1;
    }
  }

  /** The body of the command loop: Z, or every whole segment of a drawing command. */
  method RunCommand(f: Foreign, c: Calculator, pc: PathCommand,
                    points0: seq<Point>, current0: Point, start0: Point, lastControl0: Point, lastCmd: char)
    returns (points: seq<Point>, current: Point, start: Point, lastControl: Point)
    ensures PathState(points, current, start, lastControl, pc.cmd)
         == Command(f, c, pc, PathState(points0, current0, start0, lastControl0, lastCmd))
  {
    points, current, start, lastControl := points0, current0, start0, lastControl0;
    var up := UpperCommand(pc.cmd);
    if up == 'Z' {
      if |points| > 0 && Distance(f, current, start) > CloseEpsilon {
        points := points + [start];
      }
      current := start;
    } else {
      points, current, start, lastControl :=
        RunSegments(f, c, up, IsRelative(pc.cmd), pc.args, points, current, start, lastControl, lastCmd);
    }
  }

  /** A drawing command's loop over its whole segments; leftover numbers are ignored. */
  method RunSegments(f: Foreign, c: Calculator, up: char, rel: bool, args: seq<real>,
                     points0: seq<Point>, current0: Point, start0: Point, lastControl0: Point, lastCmd: char)
    returns (points: seq<Point>, current: Point, start: Point, lastControl: Point)
    ensures PathState(points, current, start, lastControl, lastCmd)
         == Segments(f, c, up, rel, args, 0, PathState(points0, current0, start0, lastControl0, lastCmd))
  {
    ghost var before := PathState(points0, current0, start0, lastControl0, lastCmd);
    points, current, start, lastControl := points0, current0, start0, lastControl0;
    var ar := Arity(up);
    var i := 0;
    while ar > 0 && i + ar <= |args|
      invariant Segments(f, c, up, rel, args, i, PathState(points, current, start, lastControl, lastCmd))
             == Segments(f, c, up, rel, args, 0, before)
      decreases |args| - i
    {
      points, current, start, lastControl :=
        DrawSegment(f, c, up, rel, i, args[i..i + ar], points, current, start, lastControl, lastCmd);
      i := i + ar;
    }
  }

  /** One segment of a drawing command, on the interpreter's registers. */
  method DrawSegment(f: Foreign, c: Calculator, up: char, rel: bool, i: nat, a: seq<real>,
                     points0: seq<Point>, current0: Point, start0: Point, lastControl0: Point, lastCmd: char)
    returns (points: seq<Point>, current: Point, start: Point, lastControl: Point)
    requires Arity(up) > 0 && |a| == Arity(up)
    ensures PathState(points, current, start, lastControl, lastCmd)
         == Segment(f, c, up, rel, i, a, PathState(points0, current0, start0, lastControl0, lastCmd))
  {
    ghost var goal := Segment(f, c, up, rel, i, a, PathState(points0, current0, start0, lastControl0, lastCmd));
    points, current, start, lastControl := points0, current0, start0, lastControl0;
    if up == 'M' {
      current := Offset(Scaled(c, a[0], a[1]), rel && (i > 0 || |points| > 0), current);
      if i == 0 {
        start := current;
      }
      points := points + [current];
    } else if up == 'L' {
      current := Offset(Scaled(c, a[0], a[1]), rel, current);
      points := points + [current];
    } else if up == 'H' {
      var x := a[0] * c.scaleX;
      if rel {
        x := x + current.x;
      }
      current := Point(x, current.y);
      points := points + [current];
      assert goal.current.x == current.x && goal.current.y == current.y;
    } else if up == 'V' {
      var y := a[0] * c.scaleY;
      if rel {
        y := y + current.y;
      }
      current := Point(current.x, y);
      points := points + [current];
      assert goal.current.x == current.x && goal.current.y == current.y;
    } else if up == 'C' {
      var cp1 := Offset(Scaled(c, a[0], a[1]), rel, current);
      var cp2 := Offset(Scaled(c, a[2], a[3]), rel, current);
      var end := Offset(Scaled(c, a[4], a[5]), rel, current);
      points := points + CubicBezier(f, c, current, cp1, cp2, end)[1..];
      current, lastControl := end, cp2;
    } else if up == 'S' {
      var cp1 := if FollowsCubic(lastCmd) then Reflect(lastControl, current) else current;
      var cp2 := Offset(Scaled(c, a[0], a[1]), rel, current);
      var end := Offset(Scaled(c, a[2], a[3]), rel, current);
      points := points + CubicBezier(f, c, current, cp1, cp2, end)[1..];
      current, lastControl := end, cp2;
    } else if up == 'Q' {
      var cp := Offset(Scaled(c, a[0], a[1]), rel, current);
      var end := Offset(Scaled(c, a[2], a[3]), rel, current);
      points := points + QuadraticBezier(f, c, current, cp, end)[1..];
      current, lastControl := end, cp;
    } else if up == 'T' {
      var cp := if FollowsQuadratic(lastCmd) then Reflect(lastControl, current) else current;
      var end := Offset(Scaled(c, a[0], a[1]), rel, current);
      points := points + QuadraticBezier(f, c, current, cp, end)[1..];
      current, lastControl := end, cp;
    } else {
      assert up == 'A';
      var end := Offset(Scaled(c, a[5], a[6]), rel, current);
      points := points + [end];
      current := end;
    }
  }

  // ---------------------------------------------------------------- path properties

  /** H moves only along x and V only along y; both draw the new current point. */
  lemma {:induction false} AxisLinesKeepOtherCoordinate(f: Foreign, c: Calculator, rel: bool, i: nat, a: seq<real>, s: PathState)
    requires |a| == 1
    ensures var r := Segment(f, c, 'H', rel, i, a, s);
      && r.current.y == s.current.y
      && r.current.x == (if rel then s.current.x + a[0] * c.scaleX else a[0] * c.scaleX)
      && r.points == s.points + [r.current] && r.start == s.start && r.lastControl == s.lastControl
    ensures var r := Segment(f, c, 'V', rel, i, a, s);
      && r.current.x == s.current.x
      && r.current.y == (if rel then s.current.y + a[0] * c.scaleY else a[0] * c.scaleY)
      && r.points == s.points + [r.current] && r.start == s.start && r.lastControl == s.lastControl
  {
  }

  /** Drawing a flattened curve after its first point keeps the old points and ends at its end. */
  lemma {:induction false} AppendCurve(ps: seq<Point>, curve: seq<Point>, end: Point)
    requires |curve| >= 2 && curve[|curve| - 1] == end
    ensures var r := ps + curve[1..];
      |r| > |ps| && r[..|ps|] == ps && r[|r| - 1] == end
  {
    var r := ps + curve[1..];
    assert r[|r| - 1] == curve[|curve| - 1];
    assert r[..|ps|] == ps;
  }

  /** Every segment keeps the points drawn so far and ends its own drawing at the new current point. */
  lemma {:induction false} SegmentEndsAtCurrent(f: Foreign, c: Calculator, up: char, rel: bool, i: nat, a: seq<real>, s: PathState)
    requires Arity(up) > 0 && |a| == Arity(up)
    ensures var r := Segment(f, c, up, rel, i, a, s);
      && |r.points| > |s.points| && r.points[..|s.points|] == s.points
      && r.points[|r.points| - 1] == r.current
      && r.lastCmd == s.lastCmd
  {
    match up
    case 'C' => CubicSegmentEnds(f, c, rel, i, a, s);
    case 'S' => SmoothCubicSegmentEnds(f, c, rel, i, a, s);
    case 'Q' => QuadraticSegmentEnds(f, c, rel, i, a, s);
    case 'T' => SmoothQuadraticSegmentEnds(f, c, rel, i, a, s);
    case _ =>
  }

  /** A curve segment keeps the points drawn so far and ends them at its end point. */
  lemma {:induction false} CubicToEnds(f: Foreign, c: Calculator, s: PathState, cp1: Point, cp2: Point, end: Point)
    ensures var r := CubicTo(f, c, s, cp1, cp2, end);
      && |r.points| > |s.points| && r.points[..|s.points|] == s.points
      && r.points[|r.points| - 1] == r.current
      && r.lastCmd == s.lastCmd
  {
    AppendCurve(s.points, CubicBezier(f, c, s.current, cp1, cp2, end), end);
  }

  lemma {:induction false} QuadraticToEnds(f: Foreign, c: Calculator, s: PathState, cp: Point, end: Point)
    ensures var r := QuadraticTo(f, c, s, cp, end);
      && |r.points| > |s.points| && r.points[..|s.points|] == s.points
      && r.points[|r.points| - 1] == r.current
      && r.lastCmd == s.lastCmd
  {
    AppendCurve(s.points, QuadraticBezier(f, c, s.current, cp, end), end);
  }

  lemma {:induction false} CubicSegmentEnds(f: Foreign, c: Calculator, rel: bool, i: nat, a: seq<real>, s: PathState)
    requires |a| == 6
    ensures var r := Segment(f, c, 'C', rel, i, a, s);
      && |r.points| > |s.points| && r.points[..|s.points|] == s.points
      && r.points[|r.points| - 1] == r.current
      && r.lastCmd == s.lastCmd
  {
    CubicToEnds(f, c, s, Offset(Scaled(c, a[0], a[1]), rel, s.current),
      Offset(Scaled(c, a[2], a[3]), rel, s.current), Offset(Scaled(c, a[4], a[5]), rel, s.current));
  }

  lemma {:induction false} SmoothCubicSegmentEnds(f: Foreign, c: Calculator, rel: bool, i: nat, a: seq<real>, s: PathState)
    requires |a| == 4
    ensures var r := Segment(f, c, 'S', rel, i, a, s);
      && |r.points| > |s.points| && r.points[..|s.points|] == s.points
      && r.points[|r.points| - 1] == r.current
      && r.lastCmd == s.lastCmd
  {
    CubicToEnds(f, c, s, if FollowsCubic(s.lastCmd) then Reflect(s.lastControl, s.current) else s.current,
      Offset(Scaled(c, a[0], a[1]), rel, s.current), Offset(Scaled(c, a[2], a[3]), rel, s.current));
  }

  lemma {:induction false} QuadraticSegmentEnds(f: Foreign, c: Calculator, rel: bool, i: nat, a: seq<real>, s: PathState)
    requires |a| == 4
    ensures var r := Segment(f, c, 'Q', rel, i, a, s);
      && |r.points| > |s.points| && r.points[..|s.points|] == s.points
      && r.points[|r.points| - 1] == r.current
      && r.lastCmd == s.lastCmd
  {
    QuadraticToEnds(f, c, s, Offset(Scaled(c, a[0], a[1]), rel, s.current), Offset(Scaled(c, a[2], a[3]), rel, s.current));
  }

  lemma {:induction false} SmoothQuadraticSegmentEnds(f: Foreign, c: Calculator, rel: bool, i: nat, a: seq<real>, s: PathState)
    requires |a| == 2
    ensures var r := Segment(f, c, 'T', rel, i, a, s);
      && |r.points| > |s.points| && r.points[..|s.points|] == s.points
      && r.points[|r.points| - 1] == r.current
      && r.lastCmd == s.lastCmd
  {
    QuadraticToEnds(f, c, s, if FollowsQuadratic(s.lastCmd) then Reflect(s.lastControl, s.current) else s.current,
      Offset(Scaled(c, a[0], a[1]), rel, s.current));
  }

  lemma {:induction false} SegmentsExtendPoints(f: Foreign, c: Calculator, up: char, rel: bool, args: seq<real>, i: nat, s: PathState)
    ensures var r := Segments(f, c, up, rel, args, i, s);
      |s.points| <= |r.points| && r.points[..|s.points|] == s.points
    decreases |args| - i
  {
    if Arity(up) > 0 && i + Arity(up) <= |args| {
      var next := Segment(f, c, up, rel, i, args[i..i + Arity(up)], s);
      SegmentEndsAtCurrent(f, c, up, rel, i, args[i..i + Arity(up)], s);
      SegmentsExtendPoints(f, c, up, rel, args, i + Arity(up), next);
      var r := Segments(f, c, up, rel, args, i, s);
      assert r.points[..|next.points|] == next.points;
      assert r.points[..|s.points|] == r.points[..|next.points|][..|s.points|];
    }
  }

  /** Points are only ever appended: running more commands keeps every point already drawn. */
  lemma {:induction false} CommandsExtendPoints(f: Foreign, c: Calculator, cmds: seq<PathCommand>, k: nat, s: PathState)
    ensures var r := Commands(f, c, cmds, k, s);
      |s.points| <= |r.points| && r.points[..|s.points|] == s.points
    decreases |cmds| - k
  {
    if k < |cmds| {
      var next := Command(f, c, cmds[k], s);
      var up := UpperCommand(cmds[k].cmd);
      if up != 'Z' {
        SegmentsExtendPoints(f, c, up, IsRelative(cmds[k].cmd), cmds[k].args, 0, s);
      }
      assert |s.points| <= |next.points| && next.points[..|s.points|] == s.points;
      CommandsExtendPoints(f, c, cmds, k + 1, next);
      var r := Commands(f, c, cmds, k, s);
      assert r.points[..|s.points|] == r.points[..|next.points|][..|s.points|];
    }
  }

  // ---------------------------------------------------------------- outlines

  /** parsePointList's pairing: consecutive numbers as scaled (x, y); an odd last number is dropped. */
  function PointPairs(c: Calculator, nums: seq<real>): (pts: seq<Point>)
    ensures |pts| == |nums| / 2
    ensures forall k :: 0 <= k < |pts| ==> pts[k] == Scaled(c, nums[2 * k], nums[2 * k + 1])
    decreases |nums|
  {
    if |nums| < 2 then [] else [Scaled(c, nums[0], nums[1])] + PointPairs(c, nums[2..])
  }

  method ParsePointList(f: Foreign, c: Calculator, s: string) returns (points: seq<Point>)
    ensures points == PointPairs(c, f.parseNumbers(s))
  {
    var nums := f.parseNumbers(s);
    points := [];
    var i := 0;
    while i < |nums| - 1
      invariant 0 <= i && i % 2 == 0 && i <= |nums|
      invariant |points| == i / 2
      invariant forall k :: 0 <= k < |points| ==> points[k] == Scaled(c, nums[2 * k], nums[2 * k + 1])
    {
      points := points + [Scaled(c, nums[i], nums[i + 1])];
      i := i + 2;
    }
    assert |points| == |nums| / 2;
  }

  /** The summed lengths of the segments between the first n points. */
  function ChainLength(f: Foreign, pts: seq<Point>, n: nat): real
    requires n <= |pts|
  {
    if n <= 1 then 0.0 else ChainLength(f, pts, n - 1) + Distance(f, pts[n - 2], pts[n - 1])
  }

  /** The box of the first n points, grown point by point from the first. */
  function Hull(pts: seq<Point>, n: nat): BoundingBox
    requires 1 <= n <= |pts|
  {
    if n == 1 then BoundingBox(pts[0].x, pts[0].y, pts[0].x, pts[0].y)
    else ExpandBounds(Hull(pts, n - 1), pts[n - 1])
  }

  /** The hull is an ordered box holding every point it was grown from. */
  lemma {:induction false} HullContainsPoints(pts: seq<Point>, n: nat)
    requires 1 <= n <= |pts|
    ensures Ordered(Hull(pts, n))
    ensures forall k :: 0 <= k < n ==> Contains(Hull(pts, n), pts[k])
  {
    if n > 1 {
      HullContainsPoints(pts, n - 1);
      forall k | 0 <= k < n
        ensures Contains(Hull(pts, n), pts[k])
      {
        if k < n - 1 {
          assert Contains(Hull(pts, n - 1), pts[k]);
        }
      }
    }
  }

  /** With a non-negative square root, outline lengths are non-negative. */
  lemma {:induction false} ChainLengthNonNegative(f: Foreign, pts: seq<Point>, n: nat)
    requires Sane(f) && n <= |pts|
    ensures ChainLength(f, pts, n) >= 0.0
  {
    if n > 1 {
      ChainLengthNonNegative(f, pts, n - 1);
      assert Distance(f, pts[n - 2], pts[n - 1]) >= 0.0;
    }
  }

  /** The loop shared by calculatePolyline and calculatePath: total length and bounds. */
  method TraceOutline(f: Foreign, points: seq<Point>) returns (length: real, bounds: BoundingBox)
    requires |points| >= 1
    ensures length == ChainLength(f, points, |points|)
    ensures bounds == Hull(points, |points|)
  {
    length := 0.0;
    bounds := BoundingBox(points[0].x, points[0].y, points[0].x, points[0].y);
    var i := 1;
    while i < |points|
      invariant 1 <= i <= |points|
      invariant length == ChainLength(f, points, i)
      invariant bounds == Hull(points, i)
    {
      length := length + Distance(f, points[i - 1], points[i]);
      bounds := ExpandBounds(bounds, points[i]);
      i := i + 1;
    }
  }

  /** The shoelace sum over the first n edges, the last edge wrapping round to the first point. */
  function CrossSum(pts: seq<Point>, n: nat): real
    requires n <= |pts|
  {
    if n == 0 then 0.0
    else
      var i := n - 1;
      var j := (i + 1) % |pts|;
      CrossSum(pts, n - 1) + pts[i].x * pts[j].y - pts[j].x * pts[i].y
  }

  /** The polygon area of the shoelace formula; 0 below three points. */
  function ShoelaceOf(pts: seq<Point>): (a: real)
    ensures a >= 0.0
    ensures |pts| < 3 ==> a == 0.0
  {
    if |pts| < 3 then 0.0 else Abs(CrossSum(pts, |pts|)) / 2.0
  }

  method ShoelaceArea(points: seq<Point>) returns (area: real)
    ensures area == ShoelaceOf(points)
  {
    if |points| < 3 {
      return 0.0;
    }
    var sum := 0.0;
    var n := |points|;
    var i := 0;
    while i < n
      invariant 0 <= i <= n
      invariant sum == CrossSum(points, i)
    {
      var j := (i + 1) % n;
      sum := sum + points[i].x * points[j].y;
      sum := sum - points[j].x * points[i].y;
      i := i + 1;
    }
    area := Abs(sum) / 2.0;
  }

  /** An axis-aligned rectangle traced as a polygon has the shoelace area |w·h|. */
  lemma {:induction false} ShoelaceOfRectangle(x: real, y: real, w: real, h: real)
    ensures ShoelaceOf([Point(x, y), Point(x + w, y), Point(x + w, y + h), Point(x, y + h)]) == Abs(w * h)
  {
    var pts := [Point(x, y), Point(x + w, y), Point(x + w, y + h), Point(x, y + h)];
    assert CrossSum(pts, 1) == x * y - (x + w) * y;
    assert CrossSum(pts, 2) == CrossSum(pts, 1) + (x + w) * (y + h) - (x + w) * y;
    assert CrossSum(pts, 3) == CrossSum(pts, 2) + (x + w) * (y + h) - x * (y + h);
    assert CrossSum(pts, 4) == CrossSum(pts, 3) + x * y - x * (y + h);
    assert CrossSum(pts, 4) == 2.0 * (w * h);
  }

  // ---------------------------------------------------------------- element measures

  /** The radii a rounded rectangle uses: a missing one copies the other. */
  function CornerRadii(rx: real, ry: real): (radii: (real, real))
    requires rx > 0.0 || ry > 0.0
    ensures radii.0 == (if rx == 0.0 then ry else rx)
    ensures radii.1 == (if ry == 0.0 then radii.0 else ry)
    ensures radii.0 > 0.0 || radii.1 > 0.0
  {
    var rx' := if rx == 0.0 then ry else rx;
    (rx', if ry == 0.0 then rx' else ry)
  }

  /** A rectangle's measures from its scaled position, size and corner radii. */
  function RectOf(pi: real, x: real, y: real, w: real, h: real, rx: real, ry: real): (g: GeometryResult)
    ensures g.length == g.perimeter && g.points == []
    ensures g.bounds == BoundingBox(x, y, x + w, y + h)
    ensures !(rx > 0.0 || ry > 0.0) ==> g.area == w * h && g.perimeter == 2.0 * (w + h)
    ensures rx > 0.0 || ry > 0.0 ==>
      var (erx, ery) := CornerRadii(rx, ry);
      && g.area == w * h - (4.0 - pi) * erx * ery
      && g.perimeter == 2.0 * (w + h) - (4.0 - pi) * (erx + ery)
  {
    var bounds := BoundingBox(x, y, x + w, y + h);
    if rx > 0.0 || ry > 0.0 then
      var (erx, ery) := CornerRadii(rx, ry);
      var cornerArea := 4.0 * (erx * ery - pi * erx * ery / 4.0);
      var perimeter := 2.0 * (w - 2.0 * erx) + 2.0 * (h - 2.0 * ery) + 2.0 * pi * ((erx + ery) / 2.0);
      GeometryResult(perimeter, w * h - cornerArea, perimeter, bounds, [])
    else
      GeometryResult(2.0 * (w + h), w * h, 2.0 * (w + h), bounds, [])
  }

  function Rect(f: Foreign, c: Calculator, attrs: map<string, string>): GeometryResult
  {
    RectOf(f.pi,
      AttrFloat(f, attrs, "x") * c.scaleX, AttrFloat(f, attrs, "y") * c.scaleY,
      AttrFloat(f, attrs, "width") * c.scaleX, AttrFloat(f, attrs, "height") * c.scaleY,
      AttrFloat(f, attrs, "rx") * c.scaleX, AttrFloat(f, attrs, "ry") * c.scaleY)
  }

  /** A circle's measures from its scaled centre and radius. */
  function CircleOf(pi: real, cx: real, cy: real, r: real): (g: GeometryResult)
    ensures g.length == g.perimeter && g.points == []
    ensures g.perimeter == 2.0 * pi * r && g.area == pi * r * r
    ensures g.bounds == BoundingBox(cx - r, cy - r, cx + r, cy + r)
    ensures pi > 0.0 && r >= 0.0 ==> g.area >= 0.0 && g.perimeter >= 0.0 && Ordered(g.bounds)
  {
    var perimeter := 2.0 * pi * r;
    GeometryResult(perimeter, pi * r * r, perimeter, BoundingBox(cx - r, cy - r, cx + r, cy + r), [])
  }

  /** The radius is scaled by the mean of the two scales. */
  function Circle(f: Foreign, c: Calculator, attrs: map<string, string>): GeometryResult
  {
    CircleOf(f.pi, AttrFloat(f, attrs, "cx") * c.scaleX, AttrFloat(f, attrs, "cy") * c.scaleY,
      AttrFloat(f, attrs, "r") * ((c.scaleX + c.scaleY) / 2.0))
  }

  /** Ramanujan's approximation of the perimeter of an ellipse with semi-axes rx and ry. */
  function RamanujanPerimeter(f: Foreign, rx: real, ry: real): real
  {
    var q := FloatDiv(rx - ry, rx + ry);
    var h := q * q;
    f.pi * (rx + ry) * (1.0 + FloatDiv(3.0 * h, 10.0 + f.sqrt(4.0 - 3.0 * h)))
  }

  /** With equal semi-axes the Ramanujan perimeter is exactly a circle's 2πr. */
  lemma {:induction false} RamanujanOfCircle(f: Foreign, r: real)
    ensures RamanujanPerimeter(f, r, r) == 2.0 * f.pi * r
  {
    assert FloatDiv(r - r, r + r) == 0.0;
    assert FloatDiv(3.0 * 0.0, 10.0 + f.sqrt(4.0 - 3.0 * 0.0)) == 0.0;
  }

  /** An ellipse's measures from its scaled centre and semi-axes. */
  function EllipseOf(f: Foreign, cx: real, cy: real, rx: real, ry: real): (g: GeometryResult)
    ensures g.length == g.perimeter && g.points == []
    ensures g.area == f.pi * rx * ry
    ensures g.bounds == BoundingBox(cx - rx, cy - ry, cx + rx, cy + ry)
    ensures rx == ry ==> g == CircleOf(f.pi, cx, cy, rx)
  {
    RamanujanOfCircle(f, rx);
    var perimeter := RamanujanPerimeter(f, rx, ry);
    GeometryResult(perimeter, f.pi * rx * ry, perimeter, BoundingBox(cx - rx, cy - ry, cx + rx, cy + ry), [])
  }

  function Ellipse(f: Foreign, c: Calculator, attrs: map<string, string>): GeometryResult
  {
    EllipseOf(f, AttrFloat(f, attrs, "cx") * c.scaleX, AttrFloat(f, attrs, "cy") * c.scaleY,
      AttrFloat(f, attrs, "rx") * c.scaleX, AttrFloat(f, attrs, "ry") * c.scaleY)
  }

  /** A segment's measures: its length, no area, and the box of its two ends. */
  function LineOf(f: Foreign, p1: Point, p2: Point): (g: GeometryResult)
    ensures g.length == g.perimeter == Distance(f, p1, p2) && g.area == 0.0
    ensures g.points == [p1, p2]
    ensures Ordered(g.bounds) && Contains(g.bounds, p1) && Contains(g.bounds, p2)
    ensures g.bounds == ExpandBounds(BoundingBox(p1.x, p1.y, p1.x, p1.y), p2)
    ensures Sane(f) ==> g.length >= 0.0
  {
    var length := Distance(f, p1, p2);
    GeometryResult(length, 0.0, length,
      BoundingBox(Min(p1.x, p2.x), Min(p1.y, p2.y), Max(p1.x, p2.x), Max(p1.y, p2.y)), [p1, p2])
  }

  function Line(f: Foreign, c: Calculator, attrs: map<string, string>): GeometryResult
  {
    LineOf(f, Point(AttrFloat(f, attrs, "x1") * c.scaleX, AttrFloat(f, attrs, "y1") * c.scaleY),
      Point(AttrFloat(f, attrs, "x2") * c.scaleX, AttrFloat(f, attrs, "y2") * c.scaleY))
  }

  /** calculatePolyline: the outline of the points, closed back to the first for a polygon of 3 or more. */
  function PolylineGeometry(f: Foreign, c: Calculator, attrs: map<string, string>, closed: bool): (g: GeometryResult)
    ensures MapGet(attrs, "points", "") == "" ==> g == Zero
    ensures |PointPairs(c, f.parseNumbers(MapGet(attrs, "points", "")))| < 2 ==> g == Zero
    ensures g.length == g.perimeter && g.area >= 0.0
    ensures !closed ==> g.area == 0.0
    ensures forall k :: 0 <= k < |g.points| ==> Contains(g.bounds, g.points[k])
    ensures g != Zero ==> Ordered(g.bounds)
    ensures g != Zero ==>
      var pts := g.points;
      g.length == ChainLength(f, pts, |pts|) + (if closed && |pts| > 2 then Distance(f, pts[|pts| - 1], pts[0]) else 0.0)
  {
    var s := MapGet(attrs, "points", "");
    if s == "" then Zero
    else
      var pts := PointPairs(c, f.parseNumbers(s));
      if |pts| < 2 then Zero
      else
        HullContainsPoints(pts, |pts|);
        var closing := if closed && |pts| > 2 then Distance(f, pts[|pts| - 1], pts[0]) else 0.0;
        var length := ChainLength(f, pts, |pts|) + closing;
        GeometryResult(length, if closed then ShoelaceOf(pts) else 0.0, length, Hull(pts, |pts|), pts)
  }

  /** calculatePath: the outline of the flattened path, with the shoelace area of its points. */
  function PathGeometry(f: Foreign, c: Calculator, attrs: map<string, string>): (g: GeometryResult)
    ensures MapGet(attrs, "d", "") == "" ==> g == Zero
    ensures |PathPoints(f, c, MapGet(attrs, "d", ""))| < 2 ==> g == Zero
    ensures g.length == g.perimeter && g.area >= 0.0
    ensures forall k :: 0 <= k < |g.points| ==> Contains(g.bounds, g.points[k])
    ensures g != Zero ==> Ordered(g.bounds) && g.length == ChainLength(f, g.points, |g.points|)
    ensures g != Zero ==> g.area == ShoelaceOf(g.points)
  {
    var d := MapGet(attrs, "d", "");
    if d == "" then Zero
    else
      var pts := PathPoints(f, c, d);
      if |pts| < 2 then Zero
      else
        HullContainsPoints(pts, |pts|);
        var length := ChainLength(f, pts, |pts|);
        GeometryResult(length, Abs(ShoelaceOf(pts)), length, Hull(pts, |pts|), pts)
  }

  /** The measures of one element by its type; other types measure as zero. */
  function ElementGeometry(f: Foreign, c: Calculator, e: SvgParser.RawElement): (g: GeometryResult)
    ensures e.typ !in SvgParser.ElementTypes ==> g == Zero
  {
    match e.typ
    case "rect" => Rect(f, c, e.attributes)
    case "circle" => Circle(f, c, e.attributes)
    case "ellipse" => Ellipse(f, c, e.attributes)
    case "line" => Line(f, c, e.attributes)
    case "polyline" => PolylineGeometry(f, c, e.attributes, false)
    case "polygon" => PolylineGeometry(f, c, e.attributes, true)
    case "path" => PathGeometry(f, c, e.attributes)
    case _ => Zero
  }

  method CalculatePolyline(f: Foreign, c: Calculator, attrs: map<string, string>, closed: bool) returns (g: GeometryResult)
    ensures g == PolylineGeometry(f, c, attrs, closed)
  {
    var pointsStr := MapGet(attrs, "points", "");
    if pointsStr == "" {
      return Zero;
    }
    var points := ParsePointList(f, c, pointsStr);
    if |points| < 2 {
      return Zero;
    }
    var length, bounds := TraceOutline(f, points);
    if closed && |points| > 2 {
      length := length + Distance(f, points[|points| - 1], points[0]);
    }
    var area := 0.0;
    if closed {
      area := ShoelaceArea(points);
    }
    g := GeometryResult(length, area, length, bounds, points);
  }

  method CalculatePath(f: Foreign, c: Calculator, attrs: map<string, string>) returns (g: GeometryResult)
    ensures g == PathGeometry(f, c, attrs)
  {
    var d := MapGet(attrs, "d", "");
    if d == "" {
      return Zero;
    }
    var points := PathToPoints(f, c, d);
    if |points| < 2 {
      return Zero;
    }
    var length, bounds := TraceOutline(f, points);
    var area := ShoelaceArea(points);
    g := GeometryResult(length, Abs(area), length, bounds, points);
  }

  /** Calculate: dispatch on the element type. */
  method Calculate(f: Foreign, c: Calculator, e: SvgParser.RawElement) returns (g: GeometryResult)
    ensures g == ElementGeometry(f, c, e)
  {
    match e.typ
    case "rect" => g := Rect(f, c, e.attributes);
    case "circle" => g := Circle(f, c, e.attributes);
    case "ellipse" => g := Ellipse(f, c, e.attributes);
    case "line" => g := Line(f, c, e.attributes);
    case "polyline" => g := CalculatePolyline(f, c, e.attributes, false);
    case "polygon" => g := CalculatePolyline(f, c, e.attributes, true);
    case "path" => g := CalculatePath(f, c, e.attributes);
    case _ => g := Zero;
  }
}
