/**
 * lesson03/dof_calc.py: the points of some lines that lie on a "degree of
 * freedom" line, i.e. on the segment between its ends. Each such point is copied
 * into a POINT layer named after that line.
 *
 * As written, `distance` hands `to_tuple()` to `math.dist`, and that tuple ends
 * with the point's Layer. `math.dist` accepts only numbers, so every distance,
 * and every `is_dof_point`, raises TypeError. The corrected `distance` measures
 * the coordinates only; the Euclidean distance itself is the parameter `dist`.
 */
module DofCalc {
  import opened Wrappers
  import opened Sequences
  import opened Entities

  /** An element of a tuple handed to `math.dist`: a number, or the Layer object. */
  datatype Item = Num(value: real) | Obj(layer: Layer)

  /** `Point.to_tuple()`: the three coordinates, then the layer. */
  function ToTuple(p: Point): seq<Item> {
    [Num(p.x), Num(p.y), Num(p.z), Obj(p.layer)]
  }

  /** The tuple of the coordinates alone, as `math.dist` needs it. */
  function CoordTuple(c: Xyz): seq<Item> {
    [Num(c.x), Num(c.y), Num(c.z)]
  }

  predicate AllNumbers(t: seq<Item>) {
    forall k :: 0 <= k < |t| ==> t[k].Num?
  }

  function Values(t: seq<Item>): (v: seq<real>)
    requires AllNumbers(t)
    ensures |v| == |t| && forall k :: 0 <= k < |t| ==> v[k] == t[k].value
  {
    seq(|t|, k requires 0 <= k < |t| => t[k].value)
  }

  /**
   * `math.dist(p, q)`: ValueError when the dimensions differ, TypeError when an
   * element is not a number, otherwise the Euclidean distance `euclid` gives.
   */
  function MathDist(p: seq<Item>, q: seq<Item>, euclid: (seq<real>, seq<real>) -> real): Result<real> {
    if |p| != |q| then Err(ValueError)
    else if !AllNumbers(p) || !AllNumbers(q) then Err(TypeError)
    else Ok(euclid(Values(p), Values(q)))
  }

  /** `distance(p1, p2)` as written: `math.dist(p1.to_tuple(), p2.to_tuple())`. */
  function DistanceAsWritten(p1: Point, p2: Point, euclid: (seq<real>, seq<real>) -> real): Result<real> {
    MathDist(ToTuple(p1), ToTuple(p2), euclid)
  }

  /** The Layer in the tuple makes every distance as written a TypeError. */
  lemma DistanceAsWrittenRaises(p1: Point, p2: Point, euclid: (seq<real>, seq<real>) -> real)
    ensures DistanceAsWritten(p1, p2, euclid) == Err(TypeError)
  {
    assert !ToTuple(p1)[3].Num?;
  }

  /** `is_dof_point(line, p2)` as written: three distances in order, the first exception propagating. */
  function IsDofPointAsWritten(line: Line, p: Point, euclid: (seq<real>, seq<real>) -> real): Result<bool> {
    match DistanceAsWritten(line.start, line.end, euclid)
    case Err(e) => Err(e)
    case Ok(lineLength) =>
      match DistanceAsWritten(line.start, p, euclid)
      case Err(e) => Err(e)
      case Ok(startLength) =>
        match DistanceAsWritten(line.end, p, euclid)
        case Err(e) => Err(e)
        case Ok(endLength) => Ok(lineLength == startLength + endLength)
  }

  /** Whatever the points, `is_dof_point` as written raises TypeError. */
  lemma IsDofPointAsWrittenRaises(line: Line, p: Point, euclid: (seq<real>, seq<real>) -> real)
    ensures IsDofPointAsWritten(line, p, euclid) == Err(TypeError)
  {
    DistanceAsWrittenRaises(line.start, line.end, euclid);
  }

  /** `distance` as intended: the distance of the coordinates, `dist` standing for `math.dist`. */
  function Distance(p1: Point, p2: Point, dist: (Xyz, Xyz) -> real): real {
    dist(p1.Coords(), p2.Coords())
  }

  /** When `dist` is `math.dist` on coordinate tuples, the corrected distance is what `math.dist` gives. */
  lemma DistanceIsMathDist(p1: Point, p2: Point, dist: (Xyz, Xyz) -> real, euclid: (seq<real>, seq<real>) -> real)
    requires forall a, b :: dist(a, b) == euclid([a.x, a.y, a.z], [b.x, b.y, b.z])
    ensures MathDist(CoordTuple(p1.Coords()), CoordTuple(p2.Coords()), euclid) == Ok(Distance(p1, p2, dist))
  {
    var a, b := p1.Coords(), p2.Coords();
    assert Values(CoordTuple(a)) == [a.x, a.y, a.z];
    assert Values(CoordTuple(b)) == [b.x, b.y, b.z];
  }

  /**
   * `is_dof_point` as intended: the two legs through `p` add up to the line's
   * length, compared exactly, with no tolerance.
   */
  predicate IsDofPoint(line: Line, p: Point, dist: (Xyz, Xyz) -> real) {
    Distance(line.start, line.end, dist) == Distance(line.start, p, dist) + Distance(line.end, p, dist)
  }

  /** With a symmetric distance that is zero from a point to itself, both ends of a line lie on it. */
  lemma EndsAreDofPoints(line: Line, dist: (Xyz, Xyz) -> real)
    requires forall a :: dist(a, a) == 0.0
    requires forall a, b :: dist(a, b) == dist(b, a)
    ensures IsDofPoint(line, line.start, dist) && IsDofPoint(line, line.end, dist)
  {
    var s, e := line.start.Coords(), line.end.Coords();
    assert dist(s, s) == 0.0 && dist(e, e) == 0.0;
    assert dist(e, s) == dist(s, e);
  }

  /** The test the loop applies to a candidate point: `is_dof_point` as written, or as intended. */
  function WrittenTest(euclid: (seq<real>, seq<real>) -> real): (Line, Point) -> Result<bool> {
    (line: Line, p: Point) => IsDofPointAsWritten(line, p, euclid)
  }

  function IntendedTest(dist: (Xyz, Xyz) -> real): (Line, Point) -> Result<bool> {
    (line: Line, p: Point) => Ok(IsDofPoint(line, p, dist))
  }

  /** Puts `acc` in front of a successful result. */
  function Prepend(acc: seq<Point>, r: Result<seq<Point>>): Result<seq<Point>> {
    match r
    case Err(e) => Err(e)
    case Ok(ps) => Ok(acc + ps)
  }

  /** `Point(p.x, p.y, p.z, layer)`: the copy of a candidate in the new layer. */
  function Copy(p: Point, layer: Layer): Point {
    NewPoint(p.x, p.y, p.z, layer)
  }

  /** What one line adds: its start, then its end, each when the test holds for it. */
  function Picks(line: Line, layer: Layer, dofLine: Line, test: (Line, Point) -> Result<bool>): Result<seq<Point>> {
    match test(dofLine, line.start)
    case Err(e) => Err(e)
    case Ok(atStart) =>
      match test(dofLine, line.end)
      case Err(e) => Err(e)
      case Ok(atEnd) =>
        Ok((if atStart then [Copy(line.start, layer)] else []) + (if atEnd then [Copy(line.end, layer)] else []))
  }

  /**
   * `get_dof_points_from_lines_by_dof_line`: for each line, a new POINT layer
   * named after the dof line, then that line's picks; the first exception ends it.
   */
  function DofRun(lines: seq<Line>, dofLine: Line, test: (Line, Point) -> Result<bool>): Result<seq<Point>> {
    if lines == [] then Ok([])
    else
      match NewLayer(dofLine.layer.name, PointType)
      case Err(e) => Err(e)
      case Ok(layer) =>
        match Picks(lines[0], layer, dofLine, test)
        case Err(e) => Err(e)
        case Ok(ps) => Prepend(ps, DofRun(lines[1..], dofLine, test))
  }

  lemma PrependEmpty(r: Result<seq<Point>>)
    ensures Prepend([], r) == r
  {
    if r.Ok? {
      assert [] + r.value == r.value;
    }
  }

  lemma PrependTwice(a: seq<Point>, b: seq<Point>, r: Result<seq<Point>>)
    ensures Prepend(a, Prepend(b, r)) == Prepend(a + b, r)
  {
    if r.Ok? {
      assert a + (b + r.value) == a + b + r.value;
    }
  }

  /** The loop of `get_dof_points_from_lines_by_dof_line`. */
  method ByDofLine(lines: seq<Line>, dofLine: Line, test: (Line, Point) -> Result<bool>) returns (r: Result<seq<Point>>)
    ensures r == DofRun(lines, dofLine, test)
  {
    var dofPoints: seq<Point> := [];
    assert lines[0..] == lines;
    PrependEmpty(DofRun(lines, dofLine, test));
    for i := 0 to |lines|
      invariant DofRun(lines, dofLine, test) == Prepend(dofPoints, DofRun(lines[i..], dofLine, test))
    {
      assert lines[i..][1..] == lines[i + 1..];
      var layer := NewLayer(dofLine.layer.name, PointType);
      if layer.Err? {
        return Err(layer.error);
      }
      var line := lines[i];
      ghost var before := dofPoints;
      var atStart := test(dofLine, line.start);
      if atStart.Err? {
        return Err(atStart.error);
      }
      if atStart.value {
        dofPoints := dofPoints + [Copy(line.start, layer.value)];
      }
      var atEnd := test(dofLine, line.end);
      if atEnd.Err? {
        return Err(atEnd.error);
      }
      if atEnd.value {
        dofPoints := dofPoints + [Copy(line.end, layer.value)];
      }
      ghost var ps := Picks(line, layer.value, dofLine, test);
      assert ps.Ok? && dofPoints == before + ps.value;
      assert DofRun(lines[i..], dofLine, test) == Prepend(ps.value, DofRun(lines[i + 1..], dofLine, test));
      PrependTwice(before, ps.value, DofRun(lines[i + 1..], dofLine, test));
    }
    assert lines[|lines|..] == [] && dofPoints + [] == dofPoints;
    r := Ok(dofPoints);
  }

  /**
   * As written, a non-empty list of lines always ends in an exception: IndexError
   * when the dof line's name has no `H<digits>` for the POINT layer, TypeError
   * from `is_dof_point` otherwise. Only an empty list gives a result.
   */
  lemma DofRunAsWritten(lines: seq<Line>, dofLine: Line, euclid: (seq<real>, seq<real>) -> real)
    ensures lines == [] ==> DofRun(lines, dofLine, WrittenTest(euclid)) == Ok([])
    ensures lines != [] && NewLayer(dofLine.layer.name, PointType).Err? ==>
      DofRun(lines, dofLine, WrittenTest(euclid)) == Err(IndexError)
    ensures lines != [] && NewLayer(dofLine.layer.name, PointType).Ok? ==>
      DofRun(lines, dofLine, WrittenTest(euclid)) == Err(TypeError)
  {
    if lines != [] {
      IsDofPointAsWrittenRaises(dofLine, lines[0].start, euclid);
    }
  }

  /** What one line adds under the intended test: the ends that lie on the dof line, start first. */
  function Selection(line: Line, layer: Layer, dofLine: Line, dist: (Xyz, Xyz) -> real): seq<Point> {
    (if IsDofPoint(dofLine, line.start, dist) then [Copy(line.start, layer)] else [])
    + (if IsDofPoint(dofLine, line.end, dist) then [Copy(line.end, layer)] else [])
  }

  function Selections(lines: seq<Line>, layer: Layer, dofLine: Line, dist: (Xyz, Xyz) -> real): (r: seq<seq<Point>>)
    ensures |r| == |lines|
    ensures forall k :: 0 <= k < |lines| ==> r[k] == Selection(lines[k], layer, dofLine, dist)
  {
    seq(|lines|, k requires 0 <= k < |lines| => Selection(lines[k], layer, dofLine, dist))
  }

  /**
   * Under the intended test the loop fails only on the layer: IndexError exactly
   * when there are lines and the dof line's name makes no POINT layer. Otherwise
   * it returns the selected ends of all lines, in line order.
   */
  lemma {:induction false} DofRunIntended(lines: seq<Line>, dofLine: Line, dist: (Xyz, Xyz) -> real)
    ensures lines != [] && NewLayer(dofLine.layer.name, PointType).Err? ==>
      DofRun(lines, dofLine, IntendedTest(dist)) == Err(IndexError)
    ensures NewLayer(dofLine.layer.name, PointType).Ok? ==>
      DofRun(lines, dofLine, IntendedTest(dist))
        == Ok(Flatten(Selections(lines, NewLayer(dofLine.layer.name, PointType).value, dofLine, dist)))
    decreases |lines|
  {
    var layer := NewLayer(dofLine.layer.name, PointType);
    if lines != [] && layer.Ok? {
      DofRunIntended(lines[1..], dofLine, dist);
      var ss := Selections(lines, layer.value, dofLine, dist);
      assert Picks(lines[0], layer.value, dofLine, IntendedTest(dist)) == Ok(ss[0]);
      assert Selections(lines[1..], layer.value, dofLine, dist) == ss[1..];
      assert ss == [ss[0]] + ss[1..];
      FlattenCons(ss[0], ss[1..]);
    }
  }

  /** Every line adds at most two points. */
  lemma {:induction false} SelectionsLength(ss: seq<seq<Point>>)
    requires forall k :: 0 <= k < |ss| ==> |ss[k]| <= 2
    ensures |Flatten(ss)| <= 2 * |ss|
    decreases |ss|
  {
    if ss != [] {
      SelectionsLength(ss[..|ss| - 1]);
    }
  }

  /**
   * The points found for a dof line whose name makes a POINT layer: at most two
   * per line, each a copy of a line end that lies on the dof line, with that
   * candidate's coordinates, the default accuracy and the new layer.
   */
  lemma DofPointsShape(lines: seq<Line>, dofLine: Line, dist: (Xyz, Xyz) -> real)
    requires NewLayer(dofLine.layer.name, PointType).Ok?
    ensures DofRun(lines, dofLine, IntendedTest(dist)).Ok?
    ensures var layer := NewLayer(dofLine.layer.name, PointType).value;
      var out := DofRun(lines, dofLine, IntendedTest(dist)).value;
      && |out| <= 2 * |lines|
      && layer.name == dofLine.layer.name && layer.kind == PointType
      && forall p :: p in out ==>
        && p.layer == layer && p.accuracy == DefaultAccuracy && IsDofPoint(dofLine, p, dist)
        && exists k :: 0 <= k < |lines| && (p.Coords() == lines[k].start.Coords() || p.Coords() == lines[k].end.Coords())
  {
    var layer := NewLayer(dofLine.layer.name, PointType).value;
    DofRunIntended(lines, dofLine, dist);
    var ss := Selections(lines, layer, dofLine, dist);
    SelectionsLength(ss);
    forall p: Point | p in Flatten(ss)
      ensures p.layer == layer && p.accuracy == DefaultAccuracy && IsDofPoint(dofLine, p, dist)
      ensures exists k :: 0 <= k < |lines| && (p.Coords() == lines[k].start.Coords() || p.Coords() == lines[k].end.Coords())
    {
      FlattenMemberInv(ss, p);
      var k :| 0 <= k < |ss| && p in ss[k];
      assert p == Copy(lines[k].start, layer) || p == Copy(lines[k].end, layer);
    }
  }

  /**
   * `get_dof_points_from_lines_by_dof_lines`: the results for each dof line,
   * concatenated in dof-line order; the first exception ends it.
   */
  function DofRuns(lines: seq<Line>, dofLines: seq<Line>, test: (Line, Point) -> Result<bool>): Result<seq<Point>> {
    if dofLines == [] then Ok([])
    else
      match DofRun(lines, dofLines[0], test)
      case Err(e) => Err(e)
      case Ok(ps) => Prepend(ps, DofRuns(lines, dofLines[1..], test))
  }

  /** The loop of `get_dof_points_from_lines_by_dof_lines`. */
  method ByDofLines(lines: seq<Line>, dofLines: seq<Line>, test: (Line, Point) -> Result<bool>) returns (r: Result<seq<Point>>)
    ensures r == DofRuns(lines, dofLines, test)
  {
    var dofPoints: seq<Point> := [];
    assert dofLines[0..] == dofLines;
    PrependEmpty(DofRuns(lines, dofLines, test));
    for j := 0 to |dofLines|
      invariant DofRuns(lines, dofLines, test) == Prepend(dofPoints, DofRuns(lines, dofLines[j..], test))
    {
      assert dofLines[j..][1..] == dofLines[j + 1..];
      var found := ByDofLine(lines, dofLines[j], test);
      if found.Err? {
        return Err(found.error);
      }
      PrependTwice(dofPoints, found.value, DofRuns(lines, dofLines[j + 1..], test));
      dofPoints := dofPoints + found.value;
    }
    assert dofLines[|dofLines|..] == [] && dofPoints + [] == dofPoints;
    r := Ok(dofPoints);
  }

  /** When every dof line gives a result, the results are concatenated in dof-line order. */
  lemma {:induction false} DofRunsConcat(lines: seq<Line>, dofLines: seq<Line>, test: (Line, Point) -> Result<bool>)
    requires forall j :: 0 <= j < |dofLines| ==> DofRun(lines, dofLines[j], test).Ok?
    ensures DofRuns(lines, dofLines, test)
      == Ok(Flatten(seq(|dofLines|, j requires 0 <= j < |dofLines| => DofRun(lines, dofLines[j], test).value)))
    decreases |dofLines|
  {
    if dofLines != [] {
      var rest := dofLines[1..];
      DofRunsConcat(lines, rest, test);
      var all := seq(|dofLines|, j requires 0 <= j < |dofLines| => DofRun(lines, dofLines[j], test).value);
      var tail := seq(|rest|, j requires 0 <= j < |rest| => DofRun(lines, rest[j], test).value);
      assert all[1..] == tail by {
        forall j | 0 <= j < |tail| ensures all[1..][j] == tail[j] {
          assert rest[j] == dofLines[j + 1];
        }
      }
      assert all == [all[0]] + all[1..];
      FlattenCons(all[0], tail);
    }
  }

  /** A dof line whose name makes no POINT layer makes the whole result an IndexError, when there are lines. */
  lemma DofRunsFailsOnLayer(lines: seq<Line>, dofLines: seq<Line>, test: (Line, Point) -> Result<bool>, j: nat)
    requires lines != [] && j < |dofLines| && NewLayer(dofLines[j].layer.name, PointType).Err?
    requires forall i :: 0 <= i < j ==> DofRun(lines, dofLines[i], test).Ok?
    ensures DofRuns(lines, dofLines, test) == Err(IndexError)
    decreases j
  {
    if j > 0 {
      DofRunsFailsOnLayer(lines, dofLines[1..], test, j - 1);
    }
  }
}
