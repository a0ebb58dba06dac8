/**
 * lesson02/dxf_parser.py: a DXF text is a list of lines; for every line that
 * reads POINT, LINE or 3DFACE an entity parser scans forward from the next line,
 * taking each line as a group code and the line after it as the code's value,
 * until it has collected what its entity needs.
 *
 * `float()` is the parameter `toReal` (None where Python raises ValueError);
 * entity constructors that miss a required argument raise TypeError.
 *
 * The scanning functions take the lines already stripped (`StripAll`), since
 * the source only ever looks at `line.strip()`; the methods take the raw lines
 * and strip each one where the source does.
 */
module DxfParser {
  import opened Wrappers
  import opened Text
  import opened Entities
  import opened Sequences

  datatype Axis = X | Y | Z

  /** What `POINT_MAP` maps a code to: the layer, or one axis. */
  datatype PointKey = LayerKey | AxisKey(axis: Axis)

  /** The axis named by the first digit of a coordinate code: 1 is x, 2 is y, 3 is z. */
  function AxisOf(d: char): Axis {
    if d == '1' then X else if d == '2' then Y else Z
  }

  /**
   * `POINT_MAP.get(code)`: "8" is the layer; "1k", "2k", "3k" for k in 0..3 are
   * x, y and z of corner k.
   */
  function PointMap(code: string): (r: Option<PointKey>)
    ensures r == Some(LayerKey) <==> code == "8"
    ensures r.Some? && r.value.AxisKey? <==> |code| == 2 && '1' <= code[0] <= '3' && '0' <= code[1] <= '3'
    ensures r.Some? && r.value.AxisKey? ==> r.value.axis == AxisOf(code[0])
  {
    if code == "8" then Some(LayerKey)
    else if |code| == 2 && '1' <= code[0] <= '3' && '0' <= code[1] <= '3' then Some(AxisKey(AxisOf(code[0])))
    else None
  }

  /** The x, y and z collected so far for one point. */
  datatype Coords = Coords(x: Option<real>, y: Option<real>, z: Option<real>) {
    /** The coordinate held for axis `a`. */
    function Get(a: Axis): Option<real> {
      match a
      case X => x
      case Y => y
      case Z => z
    }

    /** `coordinates[axis] = v`: axis `a` now holds `v`, the other two are unchanged. */
    function Set(a: Axis, v: real): (c: Coords)
      ensures c.Get(a) == Some(v)
      ensures forall b :: b != a ==> c.Get(b) == Get(b)
      ensures c.Count() >= Count()
    {
      match a
      case X => this.(x := Some(v))
      case Y => this.(y := Some(v))
      case Z => this.(z := Some(v))
    }

    /** The number of keys set: `len(coordinates)` without the layer. */
    function Count(): (n: nat)
      ensures n <= 3
      ensures n == 3 <==> Complete()
    {
      (if x.Some? then 1 else 0) + (if y.Some? then 1 else 0) + (if z.Some? then 1 else 0)
    }

    predicate Complete() {
      x.Some? && y.Some? && z.Some?
    }
  }

  const NoCoords := Coords(None, None, None)

  // ------------------------------------------------------------ the loop

  /**
   * The loop shared by the three entity parsers, from line `n` on:
   * `for i in range(start, len(lines))` takes line i as a group code and line
   * i + 1 as its value (IndexError on the last line), updates the state with
   * `step` and breaks when `stops` holds for the code and the new state; the
   * entity is then built by `final`, as it is when the range is empty.
   */
  function Scan<S, R>(lines: seq<string>, n: nat, st: S, toReal: string -> Option<real>,
                      step: (string, string, S, (string -> Option<real>)) -> Result<S>,
                      stops: (string, S) -> bool, final: S -> Result<R>): Result<R>
    decreases |lines| - n
  {
    if n >= |lines| then final(st)
    else if n + 1 >= |lines| then Err(IndexError)
    else
      match step(lines[n], lines[n + 1], st, toReal)
      case Err(e) => Err(e)
      case Ok(st') => if stops(lines[n], st') then final(st') else Scan(lines, n + 1, st', toReal, step, stops, final)
  }

  /** The state after the loop body has run on lines n .. m - 1, with no break. */
  function Steps<S>(lines: seq<string>, n: nat, m: nat, st: S, toReal: string -> Option<real>,
                    step: (string, string, S, (string -> Option<real>)) -> Result<S>): Result<S>
    requires n <= m < |lines|
    decreases m - n
  {
    if n == m then Ok(st)
    else
      match step(lines[n], lines[n + 1], st, toReal)
      case Err(e) => Err(e)
      case Ok(st') => Steps(lines, n + 1, m, st', toReal, step)
  }

  /** The body runs without an exception up to line `k`, and the break test holds after it. */
  predicate BreaksAt<S>(lines: seq<string>, n: nat, k: nat, st: S, toReal: string -> Option<real>,
                        step: (string, string, S, (string -> Option<real>)) -> Result<S>,
                        stops: (string, S) -> bool)
    requires n <= k && k + 1 < |lines|
  {
    var s := Steps(lines, n, k + 1, st, toReal, step);
    s.Ok? && stops(lines[k], s.value)
  }

  /** The break test fails after each of the lines n .. k - 1. */
  predicate NoBreakBefore<S>(lines: seq<string>, n: nat, k: nat, st: S, toReal: string -> Option<real>,
                             step: (string, string, S, (string -> Option<real>)) -> Result<S>,
                             stops: (string, S) -> bool)
    requires k < |lines|
  {
    forall j :: n <= j < k ==> !BreaksAt(lines, n, j, st, toReal, step, stops)
  }

  /** A loop that runs and yields an entity has broken at a first line k with k + 1 < |lines|. */
  lemma {:induction false} ScanBreaks<S, R>(lines: seq<string>, n: nat, st: S, toReal: string -> Option<real>,
                                            step: (string, string, S, (string -> Option<real>)) -> Result<S>,
                                            stops: (string, S) -> bool, final: S -> Result<R>)
    requires n < |lines|
    requires Scan(lines, n, st, toReal, step, stops, final).Ok?
    ensures exists k ::
      && n <= k && k + 1 < |lines| && BreaksAt(lines, n, k, st, toReal, step, stops)
      && NoBreakBefore(lines, n, k, st, toReal, step, stops)
      && Scan(lines, n, st, toReal, step, stops, final) == final(Steps(lines, n, k + 1, st, toReal, step).value)
    decreases |lines| - n
  {
    assert n + 1 < |lines|;
    var st' := step(lines[n], lines[n + 1], st, toReal).value;
    assert Steps(lines, n, n + 1, st, toReal, step) == Ok(st');
    if stops(lines[n], st') {
      assert BreaksAt(lines, n, n, st, toReal, step, stops);
    } else {
      ScanBreaks(lines, n + 1, st', toReal, step, stops, final);
      var k :| n + 1 <= k && k + 1 < |lines| && BreaksAt(lines, n + 1, k, st', toReal, step, stops)
        && NoBreakBefore(lines, n + 1, k, st', toReal, step, stops)
        && Scan(lines, n + 1, st', toReal, step, stops, final) == final(Steps(lines, n + 1, k + 1, st', toReal, step).value);
      StepsShift(lines, n, k, st, st', toReal, step);
      forall j | n <= j < k ensures !BreaksAt(lines, n, j, st, toReal, step, stops) {
        StepsShift(lines, n, j, st, st', toReal, step);
        if n < j {
          assert !BreaksAt(lines, n + 1, j, st', toReal, step, stops);
        }
      }
      assert NoBreakBefore(lines, n, k, st, toReal, step, stops);
    }
  }

  /** The body runs once on line n and then on lines n + 1 .. k. */
  lemma StepsShift<S>(lines: seq<string>, n: nat, k: nat, st: S, st': S, toReal: string -> Option<real>,
                      step: (string, string, S, (string -> Option<real>)) -> Result<S>)
    requires n <= k && k + 1 < |lines|
    requires step(lines[n], lines[n + 1], st, toReal) == Ok(st')
    ensures Steps(lines, n, k + 1, st, toReal, step) == Steps(lines, n + 1, k + 1, st', toReal, step)
  {
  }

  /** A run of the body that succeeds on lines n .. m - 1 succeeds on line n and then on the rest. */
  lemma StepsFirst<S>(lines: seq<string>, n: nat, m: nat, st: S, toReal: string -> Option<real>,
                      step: (string, string, S, (string -> Option<real>)) -> Result<S>)
    requires n < m < |lines|
    requires Steps(lines, n, m, st, toReal, step).Ok?
    ensures step(lines[n], lines[n + 1], st, toReal).Ok?
    ensures Steps(lines, n, m, st, toReal, step)
         == Steps(lines, n + 1, m, step(lines[n], lines[n + 1], st, toReal).value, toReal, step)
  {
  }

  /** Conversely, the loop yields what `final` builds at the first line after which it breaks. */
  lemma {:induction false} ScanFirstBreak<S, R>(lines: seq<string>, n: nat, k: nat, st: S, toReal: string -> Option<real>,
                                                step: (string, string, S, (string -> Option<real>)) -> Result<S>,
                                                stops: (string, S) -> bool, final: S -> Result<R>)
    requires n <= k && k + 1 < |lines|
    requires BreaksAt(lines, n, k, st, toReal, step, stops)
    requires NoBreakBefore(lines, n, k, st, toReal, step, stops)
    ensures Scan(lines, n, st, toReal, step, stops, final) == final(Steps(lines, n, k + 1, st, toReal, step).value)
    decreases k - n
  {
    assert step(lines[n], lines[n + 1], st, toReal).Ok?;
    var st' := step(lines[n], lines[n + 1], st, toReal).value;
    StepsShift(lines, n, k, st, st', toReal, step);
    if n < k {
      StepsShift(lines, n, n, st, st', toReal, step);
      assert !BreaksAt(lines, n, n, st, toReal, step, stops);
      forall j {:trigger BreaksAt(lines, n + 1, j, st', toReal, step, stops)} | n + 1 <= j < k
        ensures !BreaksAt(lines, n + 1, j, st', toReal, step, stops)
      {
        StepsShift(lines, n, j, st, st', toReal, step);
        assert !BreaksAt(lines, n, j, st, toReal, step, stops);
      }
      assert NoBreakBefore(lines, n + 1, k, st', toReal, step, stops);
      ScanFirstBreak(lines, n + 1, k, st', toReal, step, stops, final);
    }
  }

  /**
   * A loop that never breaks raises: IndexError when its body reaches the last
   * line, or the exception the body raised before.
   */
  lemma {:induction false} ScanRunsOut<S, R>(lines: seq<string>, n: nat, st: S, toReal: string -> Option<real>,
                                             step: (string, string, S, (string -> Option<real>)) -> Result<S>,
                                             stops: (string, S) -> bool, final: S -> Result<R>)
    requires n < |lines|
    requires NoBreakBefore(lines, n, |lines| - 1, st, toReal, step, stops)
    ensures var s := Steps(lines, n, |lines| - 1, st, toReal, step);
      Scan(lines, n, st, toReal, step, stops, final) == if s.Ok? then Err(IndexError) else Err(s.error)
    decreases |lines| - n
  {
    if n + 1 < |lines| {
      match step(lines[n], lines[n + 1], st, toReal)
      case Err(e) =>
      case Ok(st') =>
        StepsShift(lines, n, n, st, st', toReal, step);
        assert !BreaksAt(lines, n, n, st, toReal, step, stops);
        forall k {:trigger BreaksAt(lines, n + 1, k, st', toReal, step, stops)} | n + 1 <= k < |lines| - 1
          ensures !BreaksAt(lines, n + 1, k, st', toReal, step, stops)
        {
          StepsShift(lines, n, k, st, st', toReal, step);
          assert !BreaksAt(lines, n, k, st, toReal, step, stops);
        }
        assert NoBreakBefore(lines, n + 1, |lines| - 1, st', toReal, step, stops);
        ScanRunsOut(lines, n + 1, st', toReal, step, stops, final);
        StepsShift(lines, n, |lines| - 2, st, st', toReal, step);
    }
  }

  /** The last line in n .. m - 1 whose code `sel` accepts, if any. */
  function LastRead(lines: seq<string>, n: nat, m: nat, sel: string -> bool): (r: Option<nat>)
    requires n <= m <= |lines|
    ensures r.Some? ==> n <= r.value < m && sel(lines[r.value])
    ensures r.Some? ==> forall j :: r.value < j < m ==> !sel(lines[j])
    ensures r.None? ==> forall j :: n <= j < m ==> !sel(lines[j])
    decreases m - n
  {
    if n == m then None
    else
      var later := LastRead(lines, n + 1, m, sel);
      if later.Some? then later else if sel(lines[n]) then Some(n) else None
  }

  /** The last line from n is the last line from n + 1, or else line n itself. */
  lemma LastReadStep(lines: seq<string>, n: nat, m: nat, sel: string -> bool)
    requires n < m <= |lines|
    ensures LastRead(lines, n, m, sel) ==
      var later := LastRead(lines, n + 1, m, sel);
      if later.Some? then later else if sel(lines[n]) then Some(n) else None
  {
  }

  /** Some line in n .. m - 1 has a code `sel` accepts, and `v` is `float()` of the value of the last one. */
  predicate ReadInto(lines: seq<string>, n: nat, m: nat, sel: string -> bool, v: real, toReal: string -> Option<real>)
    requires n <= m < |lines|
  {
    var k := LastRead(lines, n, m, sel);
    k.Some? && toReal(lines[k.value + 1]) == Some(v)
  }

  // ---------------------------------------------------------------- POINT

  /** The dict `coordinates` of `PointParser.parse`: x, y, z and the layer so far. */
  datatype PointState = PointState(c: Coords, layer: Option<Layer>)

  const NoPoint := PointState(NoCoords, None)

  /**
   * The body of `PointParser.parse` on a code and its value: the layer code sets
   * a LINE layer named by the value, an axis code stores `float(value)` (or
   * raises ValueError), any other code changes nothing.
   */
  function PointStep(code: string, next: string, st: PointState, toReal: string -> Option<real>): Result<PointState> {
    match PointMap(code)
    case Some(LayerKey) => Ok(st.(layer := Some(ShapeLayer(next, LineType))))
    case Some(AxisKey(a)) => if toReal(next).None? then Err(ValueError) else Ok(st.(c := st.c.Set(a, toReal(next).value)))
    case None => Ok(st)
  }

  /** `len(coordinates) == 4`, which a layer line skips with `continue`. */
  predicate PointStops(code: string, st: PointState) {
    PointMap(code) != Some(LayerKey) && st.c.Complete() && st.layer.Some?
  }

  /** `Point(**coordinates)`: TypeError unless x, y, z and the layer are all given. */
  function MakePoint(st: PointState): Result<Point> {
    if st.c.Complete() && st.layer.Some? then Ok(NewPoint(st.c.x.value, st.c.y.value, st.c.z.value, st.layer.value))
    else Err(TypeError)
  }

  /** The loop of `PointParser.parse` from line `n` on. */
  function PointScan(lines: seq<string>, n: nat, st: PointState, toReal: string -> Option<real>): Result<Point> {
    Scan(lines, n, st, toReal, PointStep, PointStops, MakePoint)
  }

  /** `PointParser().parse(index, lines)`. */
  method ParsePoint(index: nat, lines: seq<string>, toReal: string -> Option<real>) returns (r: Result<Point>)
    ensures r == PointScan(StripAll(lines), index + 1, NoPoint, toReal)
  {
    ghost var t := StripAll(lines);
    var c := NoCoords;
    var layer: Option<Layer> := None;
    var number := index + 1;
    while number < |lines|
      invariant PointScan(t, index + 1, NoPoint, toReal) == PointScan(t, number, PointState(c, layer), toReal)
      decreases |lines| - number
    {
      if number + 1 >= |lines| {
        return Err(IndexError);
      }
      var code := Strip(lines[number]);
      var next := Strip(lines[number + 1]);
      assert code == t[number] && next == t[number + 1];
      var key := PointMap(code);
      if key == Some(LayerKey) {
        layer := Some(ShapeLayer(next, LineType));
        number := number + 1;
        continue;
      }
      if key.Some? {
        var v := toReal(next);
        if v.None? {
          return Err(ValueError);
        }
        c := c.Set(key.value.axis, v.value);
      }
      if c.Complete() && layer.Some? {
        return Ok(NewPoint(c.x.value, c.y.value, c.z.value, layer.value));
      }
      number := number + 1;
    }
    if c.Complete() && layer.Some? {
      return Ok(NewPoint(c.x.value, c.y.value, c.z.value, layer.value));
    }
    return Err(TypeError);
  }

  /**
   * A parsed point has the default accuracy and a layer of type LINE, read from
   * the value of some code-8 line after the start (or the one already held).
   */
  lemma {:induction false} PointScanLayer(lines: seq<string>, n: nat, st: PointState, toReal: string -> Option<real>)
    requires st.layer.Some? ==> st.layer.value.kind == LineType
    ensures var r := PointScan(lines, n, st, toReal);
      r.Ok? ==> r.value.accuracy == DefaultAccuracy && r.value.layer.kind == LineType
    ensures var r := PointScan(lines, n, st, toReal);
      r.Ok? ==>
        || (st.layer.Some? && r.value.layer == st.layer.value)
        || exists k :: n <= k && k + 1 < |lines| && lines[k] == "8"
                       && r.value.layer == ShapeLayer(lines[k + 1], LineType)
    decreases |lines| - n
  {
    if n + 1 < |lines| {
      match PointStep(lines[n], lines[n + 1], st, toReal)
      case Err(_) =>
      case Ok(st') =>
        assert st'.layer == st.layer || (lines[n] == "8" && st'.layer == Some(ShapeLayer(lines[n + 1], LineType)));
        if !PointStops(lines[n], st') {
          PointScanLayer(lines, n + 1, st', toReal);
        }
    }
  }

  /** A point needs a layer: without a code-8 line after the start, parsing raises. */
  lemma PointNeedsLayerLine(lines: seq<string>, index: nat, toReal: string -> Option<real>)
    requires forall k :: index < k < |lines| - 1 ==> lines[k] != "8"
    ensures PointScan(lines, index + 1, NoPoint, toReal).Err?
  {
    PointScanLayer(lines, index + 1, NoPoint, toReal);
  }

  /** Running out of lines before the point is complete is an IndexError. */
  lemma PointRunsOut(toReal: string -> Option<real>)
    requires toReal("1.0").Some?
    ensures PointScan(["POINT", "10", "1.0"], 1, NoPoint, toReal) == Err(IndexError)
  {
  }

  /** The codes that set axis `a` of a point: "1k", "2k" or "3k" for its digit. */
  function AxisCode(a: Axis): string -> bool {
    code => PointMap(code) == Some(AxisKey(a))
  }

  /**
   * After the body has run on lines n .. m - 1, axis `a` holds the value of the
   * last of those lines that set it, or what it held before.
   */
  lemma {:induction false} PointStepsCoords(lines: seq<string>, n: nat, m: nat, st: PointState,
                                            toReal: string -> Option<real>, a: Axis)
    requires n <= m < |lines|
    requires Steps(lines, n, m, st, toReal, PointStep).Ok?
    ensures var k := LastRead(lines, n, m, AxisCode(a));
      Steps(lines, n, m, st, toReal, PointStep).value.c.Get(a) ==
        if k.Some? then toReal(lines[k.value + 1]) else st.c.Get(a)
    decreases m - n
  {
    if n < m {
      var st' := PointStep(lines[n], lines[n + 1], st, toReal).value;
      PointStepsCoords(lines, n + 1, m, st', toReal, a);
    }
  }

  /** Each coordinate of `p` is `float()` of the value of the last line in n .. m - 1 that set it. */
  predicate PointFrom(lines: seq<string>, n: nat, m: nat, p: Point, toReal: string -> Option<real>)
    requires n <= m < |lines|
  {
    && ReadInto(lines, n, m, AxisCode(X), p.x, toReal)
    && ReadInto(lines, n, m, AxisCode(Y), p.y, toReal)
    && ReadInto(lines, n, m, AxisCode(Z), p.z, toReal)
  }

  /** An axis that holds a value after the body ran on lines n .. m - 1 was set by one of them. */
  lemma PointAxisRead(lines: seq<string>, n: nat, m: nat, toReal: string -> Option<real>, a: Axis)
    requires n <= m < |lines|
    requires Steps(lines, n, m, NoPoint, toReal, PointStep).Ok?
    requires Steps(lines, n, m, NoPoint, toReal, PointStep).value.c.Get(a).Some?
    ensures ReadInto(lines, n, m, AxisCode(a), Steps(lines, n, m, NoPoint, toReal, PointStep).value.c.Get(a).value, toReal)
  {
    PointStepsCoords(lines, n, m, NoPoint, toReal, a);
  }

  /** At a break, the point built holds the values last read for x, y and z. */
  lemma PointReadsAt(lines: seq<string>, n: nat, k: nat, toReal: string -> Option<real>)
    requires n <= k && k + 1 < |lines|
    requires BreaksAt(lines, n, k, NoPoint, toReal, PointStep, PointStops)
    ensures var r := MakePoint(Steps(lines, n, k + 1, NoPoint, toReal, PointStep).value);
      r.Ok? && PointFrom(lines, n, k + 1, r.value, toReal)
  {
    var st := Steps(lines, n, k + 1, NoPoint, toReal, PointStep).value;
    assert st.c.Complete();
    assert st.c.Get(X) == st.c.x && st.c.Get(Y) == st.c.y && st.c.Get(Z) == st.c.z;
    PointAxisRead(lines, n, k + 1, toReal, X);
    PointAxisRead(lines, n, k + 1, toReal, Y);
    PointAxisRead(lines, n, k + 1, toReal, Z);
  }

  /**
   * A point parsed by a loop that runs comes from a break at some line k with a
   * line after it; x, y and z are the values last set by codes 1k, 2k and 3k
   * before the break.
   */
  lemma PointScanReads(lines: seq<string>, n: nat, toReal: string -> Option<real>)
    requires n < |lines|
    ensures var r := PointScan(lines, n, NoPoint, toReal);
      r.Ok? ==> exists k :: n <= k && k + 1 < |lines| && BreaksAt(lines, n, k, NoPoint, toReal, PointStep, PointStops)
                           && PointFrom(lines, n, k + 1, r.value, toReal)
  {
    if PointScan(lines, n, NoPoint, toReal).Ok? {
      ScanBreaks(lines, n, NoPoint, toReal, PointStep, PointStops, MakePoint);
      var k :| n <= k && k + 1 < |lines| && BreaksAt(lines, n, k, NoPoint, toReal, PointStep, PointStops)
        && Scan(lines, n, NoPoint, toReal, PointStep, PointStops, MakePoint)
           == MakePoint(Steps(lines, n, k + 1, NoPoint, toReal, PointStep).value);
      PointReadsAt(lines, n, k, toReal);
    }
  }

  // ----------------------------------------------------------------- LINE

  /** Where `LineParser` stores the value of a code. */
  datatype LineSlot = StartSlot(axis: Axis) | EndSlot(axis: Axis) | LayerSlot

  /**
   * "10"/"20"/"30" go to the start, "11"/"21"/"31" to the end, "8" is the layer,
   * each axis as `POINT_MAP` names it.
   */
  function LineKey(code: string): (r: Option<LineSlot>)
    ensures r == Some(LayerSlot) <==> code == "8"
  {
    match PointMap(code)
    case Some(LayerKey) => Some(LayerSlot)
    case Some(AxisKey(a)) =>
      if code[1] == '0' then Some(StartSlot(a)) else if code[1] == '1' then Some(EndSlot(a)) else None
    case None => None
  }

  /** The codes `LineParser` reads, listed out. */
  lemma LineKeyCodes(code: string)
    ensures LineKey(code).Some? && LineKey(code).value.StartSlot? <==> code == "10" || code == "20" || code == "30"
    ensures LineKey(code).Some? && LineKey(code).value.EndSlot? <==> code == "11" || code == "21" || code == "31"
    ensures LineKey("10") == Some(StartSlot(X)) && LineKey("20") == Some(StartSlot(Y)) && LineKey("30") == Some(StartSlot(Z))
    ensures LineKey("11") == Some(EndSlot(X)) && LineKey("21") == Some(EndSlot(Y)) && LineKey("31") == Some(EndSlot(Z))
  {
    if |code| == 2 {
      assert code == [code[0], code[1]];
    }
  }

  /** The start and end coordinates and the layer a `LineParser` holds. */
  datatype LineState = LineState(s: Coords, e: Coords, layer: Layer)

  /** The layer a `LineParser` starts with: `Layer(name="0", type=LINE)`. */
  function DefaultLineLayer(): Layer {
    ShapeLayer("0", LineType)
  }

  const NoLine := LineState(NoCoords, NoCoords, DefaultLineLayer())

  /** One iteration of `LineParser.parse` on a code and its value, before the stop test. */
  function LineStep(code: string, next: string, st: LineState, toReal: string -> Option<real>): Result<LineState> {
    match LineKey(code)
    case Some(StartSlot(a)) => if toReal(next).None? then Err(ValueError) else Ok(st.(s := st.s.Set(a, toReal(next).value)))
    case Some(EndSlot(a)) => if toReal(next).None? then Err(ValueError) else Ok(st.(e := st.e.Set(a, toReal(next).value)))
    case Some(LayerSlot) => Ok(st.(layer := ShapeLayer(next, LineType)))
    case None => Ok(st)
  }

  /** `len(start_coordinates) + len(end_coordinates) == 6`, tested after every line. */
  predicate LineStops(code: string, st: LineState) {
    st.s.Count() + st.e.Count() == 6
  }

  /** `Line(start=Point(layer=layer, **s), end=Point(layer=layer, **e), layer=layer)`. */
  function MakeLine(st: LineState): Result<Line> {
    if st.s.Complete() && st.e.Complete() then
      Ok(Line(NewPoint(st.s.x.value, st.s.y.value, st.s.z.value, st.layer),
              NewPoint(st.e.x.value, st.e.y.value, st.e.z.value, st.layer), st.layer))
    else Err(TypeError)
  }

  /** The loop of `LineParser.parse` from line `n` on: it stops once six coordinates are set. */
  function LineScan(lines: seq<string>, n: nat, st: LineState, toReal: string -> Option<real>): Result<Line> {
    Scan(lines, n, st, toReal, LineStep, LineStops, MakeLine)
  }

  /** `LineParser().parse(index, lines)`. */
  method ParseLine(index: nat, lines: seq<string>, toReal: string -> Option<real>) returns (r: Result<Line>)
    ensures r == LineScan(StripAll(lines), index + 1, NoLine, toReal)
  {
    ghost var t := StripAll(lines);
    var s, e := NoCoords, NoCoords;
    var layer := DefaultLineLayer();
    var i := index + 1;
    while i < |lines|
      invariant LineScan(t, index + 1, NoLine, toReal) == LineScan(t, i, LineState(s, e, layer), toReal)
      decreases |lines| - i
    {
      if i + 1 >= |lines| {
        return Err(IndexError);
      }
      var code := Strip(lines[i]);
      var next := Strip(lines[i + 1]);
      assert code == t[i] && next == t[i + 1];
      // the `if`/`elif` on the code: a start or end coordinate, or the layer
      var step := LineStep(code, next, LineState(s, e, layer), toReal);
      if step.Err? {
        return Err(step.error);
      }
      s, e, layer := step.value.s, step.value.e, step.value.layer;
      if s.Count() + e.Count() == 6 {
        r := MakeLine(LineState(s, e, layer));
        return;
      }
      i := i + 1;
    }
    r := MakeLine(LineState(s, e, layer));
  }

  /**
   * The start point, the end point and the line share one layer of type LINE:
   * the default "0" layer or the one named by some code-8 value.
   */
  lemma {:induction false} LineScanSharedLayer(lines: seq<string>, n: nat, st: LineState,
                                               toReal: string -> Option<real>)
    requires st.layer.kind == LineType
    ensures var r := LineScan(lines, n, st, toReal);
      r.Ok? ==>
        && r.value.start.layer == r.value.layer && r.value.end.layer == r.value.layer
        && r.value.layer.kind == LineType
    ensures var r := LineScan(lines, n, st, toReal);
      r.Ok? ==>
        || r.value.layer == st.layer
        || exists k :: n <= k && k + 1 < |lines| && lines[k] == "8"
                       && r.value.layer == ShapeLayer(lines[k + 1], LineType)
    decreases |lines| - n
  {
    if n + 1 < |lines| {
      match LineStep(lines[n], lines[n + 1], st, toReal)
      case Err(_) =>
      case Ok(st') =>
        assert st'.layer == st.layer || (lines[n] == "8" && st'.layer == ShapeLayer(lines[n + 1], LineType));
        if !LineStops(lines[n], st') {
          LineScanSharedLayer(lines, n + 1, st', toReal);
        }
    }
  }

  /** The codes that set axis `a` of the start point: 10, 20, 30. */
  function StartCode(a: Axis): string -> bool {
    code => LineKey(code) == Some(StartSlot(a))
  }

  /** The codes that set axis `a` of the end point: 11, 21, 31. */
  function EndCode(a: Axis): string -> bool {
    code => LineKey(code) == Some(EndSlot(a))
  }

  /**
   * After the body has run on lines n .. m - 1, axis `a` of the start holds the
   * value of the last of those lines that set it, or what it held before.
   */
  lemma {:induction false} LineStepsStart(lines: seq<string>, n: nat, m: nat, st: LineState,
                                          toReal: string -> Option<real>, a: Axis)
    requires n <= m < |lines|
    requires Steps(lines, n, m, st, toReal, LineStep).Ok?
    ensures var k := LastRead(lines, n, m, StartCode(a));
      Steps(lines, n, m, st, toReal, LineStep).value.s.Get(a) ==
        if k.Some? then toReal(lines[k.value + 1]) else st.s.Get(a)
    decreases m - n
  {
    if n < m {
      var st' := LineStep(lines[n], lines[n + 1], st, toReal).value;
      LineStepAxis(lines[n], lines[n + 1], st, toReal, a);
      LineStepsStart(lines, n + 1, m, st', toReal, a);
    }
  }

  /** The same for axis `a` of the end. */
  lemma {:induction false} LineStepsEnd(lines: seq<string>, n: nat, m: nat, st: LineState,
                                        toReal: string -> Option<real>, a: Axis)
    requires n <= m < |lines|
    requires Steps(lines, n, m, st, toReal, LineStep).Ok?
    ensures var k := LastRead(lines, n, m, EndCode(a));
      Steps(lines, n, m, st, toReal, LineStep).value.e.Get(a) ==
        if k.Some? then toReal(lines[k.value + 1]) else st.e.Get(a)
    decreases m - n
  {
    if n < m {
      var st' := LineStep(lines[n], lines[n + 1], st, toReal).value;
      LineStepAxis(lines[n], lines[n + 1], st, toReal, a);
      LineStepsEnd(lines, n + 1, m, st', toReal, a);
    }
  }

  /** One pass of the body sets axis `a` of the start or the end exactly when the code is one for it. */
  lemma LineStepAxis(code: string, next: string, st: LineState, toReal: string -> Option<real>, a: Axis)
    requires LineStep(code, next, st, toReal).Ok?
    ensures var st' := LineStep(code, next, st, toReal).value;
      && st'.s.Get(a) == (if StartCode(a)(code) then toReal(next) else st.s.Get(a))
      && st'.e.Get(a) == (if EndCode(a)(code) then toReal(next) else st.e.Get(a))
  {
    match LineKey(code)
    case Some(StartSlot(b)) =>
    case Some(EndSlot(b)) =>
    case _ =>
  }

  /** Each coordinate of the start and of the end is `float()` of the value last read for its code. */
  predicate LineFrom(lines: seq<string>, n: nat, m: nat, l: Line, toReal: string -> Option<real>)
    requires n <= m < |lines|
  {
    && ReadInto(lines, n, m, StartCode(X), l.start.x, toReal)
    && ReadInto(lines, n, m, StartCode(Y), l.start.y, toReal)
    && ReadInto(lines, n, m, StartCode(Z), l.start.z, toReal)
    && ReadInto(lines, n, m, EndCode(X), l.end.x, toReal)
    && ReadInto(lines, n, m, EndCode(Y), l.end.y, toReal)
    && ReadInto(lines, n, m, EndCode(Z), l.end.z, toReal)
  }

  /** An axis of an end that holds a value after the body ran on lines n .. m - 1 was set by one of them. */
  lemma LineAxisRead(lines: seq<string>, n: nat, m: nat, toReal: string -> Option<real>, a: Axis)
    requires n <= m < |lines|
    requires Steps(lines, n, m, NoLine, toReal, LineStep).Ok?
    ensures var st := Steps(lines, n, m, NoLine, toReal, LineStep).value;
      && (st.s.Get(a).Some? ==> ReadInto(lines, n, m, StartCode(a), st.s.Get(a).value, toReal))
      && (st.e.Get(a).Some? ==> ReadInto(lines, n, m, EndCode(a), st.e.Get(a).value, toReal))
  {
    LineStepsStart(lines, n, m, NoLine, toReal, a);
    LineStepsEnd(lines, n, m, NoLine, toReal, a);
  }

  /** At a break, the line built holds the values last read for each end's x, y and z. */
  lemma LineReadsAt(lines: seq<string>, n: nat, k: nat, toReal: string -> Option<real>)
    requires n <= k && k + 1 < |lines|
    requires BreaksAt(lines, n, k, NoLine, toReal, LineStep, LineStops)
    ensures var r := MakeLine(Steps(lines, n, k + 1, NoLine, toReal, LineStep).value);
      r.Ok? && LineFrom(lines, n, k + 1, r.value, toReal)
  {
    var st := Steps(lines, n, k + 1, NoLine, toReal, LineStep).value;
    assert st.s.Complete() && st.e.Complete();
    assert st.s.Get(X) == st.s.x && st.s.Get(Y) == st.s.y && st.s.Get(Z) == st.s.z;
    assert st.e.Get(X) == st.e.x && st.e.Get(Y) == st.e.y && st.e.Get(Z) == st.e.z;
    LineAxisRead(lines, n, k + 1, toReal, X);
    LineAxisRead(lines, n, k + 1, toReal, Y);
    LineAxisRead(lines, n, k + 1, toReal, Z);
  }

  /**
   * A line parsed by a loop that runs comes from a break at some line k with a
   * line after it; each end's x, y and z are the values last set by its codes
   * before the break.
   */
  lemma LineScanReads(lines: seq<string>, n: nat, toReal: string -> Option<real>)
    requires n < |lines|
    ensures var r := LineScan(lines, n, NoLine, toReal);
      r.Ok? ==> exists k :: n <= k && k + 1 < |lines| && BreaksAt(lines, n, k, NoLine, toReal, LineStep, LineStops)
                           && LineFrom(lines, n, k + 1, r.value, toReal)
  {
    if LineScan(lines, n, NoLine, toReal).Ok? {
      ScanBreaks(lines, n, NoLine, toReal, LineStep, LineStops, MakeLine);
      var k :| n <= k && k + 1 < |lines| && BreaksAt(lines, n, k, NoLine, toReal, LineStep, LineStops)
        && Scan(lines, n, NoLine, toReal, LineStep, LineStops, MakeLine)
           == MakeLine(Steps(lines, n, k + 1, NoLine, toReal, LineStep).value);
      LineReadsAt(lines, n, k, toReal);
    }
  }

  // --------------------------------------------------------------- 3DFACE

  /** One entry of the dict `points`: the corner keyed by the code's second character. */
  datatype FaceGroup = FaceGroup(key: char, c: Coords, layer: Layer)

  /** Where `setdefault` finds the group with key `key`: its position, or `|groups|` when there is none. */
  function FindGroup(groups: seq<FaceGroup>, key: char): (j: nat)
    ensures j <= |groups|
    ensures j < |groups| ==> groups[j].key == key
    ensures forall k :: 0 <= k < j ==> groups[k].key != key
  {
    if groups == [] || groups[0].key == key then 0 else 1 + FindGroup(groups[1..], key)
  }

  /**
   * `points.setdefault(key, {})[axis] = v; points.setdefault(key, {})["layer"] = layer`:
   * the group with that key gets `v` on axis `a` and the current layer; without
   * such a group a new one is added at the end.
   */
  function SetGroup(groups: seq<FaceGroup>, key: char, a: Axis, v: real, layer: Layer): (r: seq<FaceGroup>)
    ensures var j := FindGroup(groups, key);
      if j == |groups| then r == groups + [FaceGroup(key, NoCoords.Set(a, v), layer)]
      else r == groups[j := FaceGroup(key, groups[j].c.Set(a, v), layer)]
  {
    if groups == [] then [FaceGroup(key, NoCoords.Set(a, v), layer)]
    else if groups[0].key == key then [groups[0].(c := groups[0].c.Set(a, v), layer := layer)] + groups[1..]
    else [groups[0]] + SetGroup(groups[1..], key, a, v, layer)
  }

  /** The keys of the groups, in order: `points.keys()`. */
  function Keys(groups: seq<FaceGroup>): (ks: seq<char>)
    ensures |ks| == |groups|
  {
    seq(|groups|, k requires 0 <= k < |groups| => groups[k].key)
  }

  /** Dict keys compare with `==`. */
  function SameKey(a: char, b: char): bool {
    a == b
  }

  ghost predicate DistinctKeys(groups: seq<FaceGroup>) {
    Distinct(Keys(groups), SameKey)
  }

  /** `setdefault` appends a key exactly when it is new, and keeps the keys distinct. */
  lemma SetGroupKeys(groups: seq<FaceGroup>, key: char, a: Axis, v: real, layer: Layer)
    requires DistinctKeys(groups)
    ensures var r := SetGroup(groups, key, a, v, layer);
      Keys(r) == Dedup(Keys(groups) + [key], SameKey) && DistinctKeys(r)
  {
    var ks := Keys(groups);
    var r := SetGroup(groups, key, a, v, layer);
    DedupOfDistinct(ks, SameKey);
    assert (ks + [key])[..|ks + [key]| - 1] == ks;
    var j := FindGroup(groups, key);
    if j < |groups| {
      assert SameKey(ks[j], key);
      assert Keys(r) == ks;
    } else {
      assert !Member(ks, key, SameKey);
      assert Keys(r) == ks + [key];
    }
    DedupDistinct(ks + [key], SameKey);
  }

  predicate AllComplete(groups: seq<FaceGroup>) {
    forall k :: 0 <= k < |groups| ==> groups[k].c.Complete()
  }

  /** `[Point(**coordinates) for coordinates in points.values()]`. */
  function Corners(groups: seq<FaceGroup>): (ps: seq<Point>)
    requires AllComplete(groups)
    ensures |ps| == |groups|
    ensures forall k :: 0 <= k < |groups| ==>
      && ps[k].x == groups[k].c.x.value && ps[k].y == groups[k].c.y.value && ps[k].z == groups[k].c.z.value
      && ps[k].layer == groups[k].layer && ps[k].accuracy == DefaultAccuracy
  {
    seq(|groups|, k requires 0 <= k < |groups| =>
      NewPoint(groups[k].c.x.value, groups[k].c.y.value, groups[k].c.z.value, groups[k].layer))
  }

  /** The dict `points` and the current layer of `E3DFaceParser.parse`. */
  datatype FaceState = FaceState(groups: seq<FaceGroup>, layer: Layer)

  /** The layer an `E3DFaceParser` starts with: `Layer(name="0", type=E3DFACE)`. */
  function DefaultFaceLayer(): Layer {
    ShapeLayer("0", E3DFaceType)
  }

  const NoFace := FaceState([], DefaultFaceLayer())

  /**
   * The body of `E3DFaceParser.parse` on a code and its value: the layer code
   * sets an E3DFACE layer named by the value; an axis code stores `float(value)`
   * in the group of the code's second character, tagged with the current layer.
   */
  function FaceStep(code: string, next: string, st: FaceState, toReal: string -> Option<real>): Result<FaceState> {
    match PointMap(code)
    case Some(LayerKey) => Ok(st.(layer := ShapeLayer(next, E3DFaceType)))
    case Some(AxisKey(a)) =>
      if toReal(next).None? then Err(ValueError)
      else Ok(st.(groups := SetGroup(st.groups, code[1], a, toReal(next).value, st.layer)))
    case None => Ok(st)
  }

  /** Four groups, each holding x, y and z; a layer line skips the test with `continue`. */
  predicate FaceStops(code: string, st: FaceState) {
    PointMap(code) != Some(LayerKey) && |st.groups| == 4 && AllComplete(st.groups)
  }

  /** `E3DFace(points=[Point(**c) for c in points.values()], layer=layer)`. */
  function MakeFace(st: FaceState): Result<E3DFace> {
    if AllComplete(st.groups) then Ok(E3DFace(Corners(st.groups), st.layer)) else Err(TypeError)
  }

  /** The loop of `E3DFaceParser.parse` from line `n` on: it stops once four corners hold x, y and z. */
  function FaceScan(lines: seq<string>, n: nat, st: FaceState, toReal: string -> Option<real>): Result<E3DFace> {
    Scan(lines, n, st, toReal, FaceStep, FaceStops, MakeFace)
  }

  /** `E3DFaceParser().parse(index, lines)`. */
  method ParseFace(index: nat, lines: seq<string>, toReal: string -> Option<real>) returns (r: Result<E3DFace>)
    ensures r == FaceScan(StripAll(lines), index + 1, NoFace, toReal)
  {
    ghost var t := StripAll(lines);
    var groups: seq<FaceGroup> := [];
    var layer := DefaultFaceLayer();
    var i := index + 1;
    while i < |lines|
      invariant FaceScan(t, index + 1, NoFace, toReal) == FaceScan(t, i, FaceState(groups, layer), toReal)
      decreases |lines| - i
    {
      if i + 1 >= |lines| {
        return Err(IndexError);
      }
      var code := Strip(lines[i]);
      var next := Strip(lines[i + 1]);
      assert t[i] == code && t[i + 1] == next;
      var key := PointMap(code);
      if key == Some(LayerKey) {
        layer := ShapeLayer(next, E3DFaceType);
        i := i + 1;
        continue;
      }
      if key.Some? {
        var v := toReal(next);
        if v.None? {
          return Err(ValueError);
        }
        groups := SetGroup(groups, code[1], key.value.axis, v.value, layer);
      }
      if |groups| == 4 && AllComplete(groups) {
        r := MakeFace(FaceState(groups, layer));
        return;
      }
      i := i + 1;
    }
    r := MakeFace(FaceState(groups, layer));
  }

  /**
   * A parsed face has exactly four corners, or none when the scan had no line to
   * read at all; its layer and each corner's layer are of type E3DFACE.
   */
  lemma {:induction false} FaceScanCorners(lines: seq<string>, n: nat, st: FaceState, toReal: string -> Option<real>)
    requires st.layer.kind == E3DFaceType
    requires forall k :: 0 <= k < |st.groups| ==> st.groups[k].layer.kind == E3DFaceType
    ensures var r := FaceScan(lines, n, st, toReal);
      r.Ok? ==> |r.value.points| == 4 || (n >= |lines| && |r.value.points| == |st.groups|)
    ensures var r := FaceScan(lines, n, st, toReal);
      r.Ok? ==>
        && r.value.layer.kind == E3DFaceType
        && forall k :: 0 <= k < |r.value.points| ==> r.value.points[k].layer.kind == E3DFaceType
    decreases |lines| - n
  {
    if n + 1 < |lines| {
      match FaceStep(lines[n], lines[n + 1], st, toReal)
      case Err(_) =>
      case Ok(st') =>
        assert forall k :: 0 <= k < |st'.groups| ==> st'.groups[k].layer.kind == E3DFaceType;
        if !FaceStops(lines[n], st') {
          FaceScanCorners(lines, n + 1, st', toReal);
        }
    }
  }

  /** The parse of a face never yields a corner count other than 0 or 4. */
  lemma FaceCornerCount(lines: seq<string>, index: nat, toReal: string -> Option<real>)
    ensures var r := FaceScan(lines, index + 1, NoFace, toReal);
      r.Ok? ==> |r.value.points| == 4 || (index + 1 >= |lines| && r.value.points == [])
  {
    FaceScanCorners(lines, index + 1, NoFace, toReal);
  }

  /** The group key an axis code names: its second character; no key for other codes. */
  function KeyOf(code: string): seq<char> {
    match PointMap(code)
    case Some(AxisKey(_)) => [code[1]]
    case _ => []
  }

  /** The second characters of the axis codes among lines n .. m - 1, in line order. */
  function ReadKeys(lines: seq<string>, n: nat, m: nat): seq<char>
    requires n <= m <= |lines|
    decreases m - n
  {
    if n == m then [] else KeyOf(lines[n]) + ReadKeys(lines, n + 1, m)
  }

  /** One pass of the body keeps the keys distinct and the groups in place. */
  lemma FaceStepDistinct(code: string, next: string, st: FaceState, toReal: string -> Option<real>)
    requires DistinctKeys(st.groups)
    requires FaceStep(code, next, st, toReal).Ok?
    ensures var g := FaceStep(code, next, st, toReal).value.groups;
      && DistinctKeys(g)
      && |st.groups| <= |g|
      && forall j :: 0 <= j < |st.groups| ==> g[j].key == st.groups[j].key
  {
    match PointMap(code)
    case Some(AxisKey(a)) =>
      SetGroupKeys(st.groups, code[1], a, toReal(next).value, st.layer);
    case _ =>
  }

  /** One pass of the body adds the code's key exactly when it is new. */
  lemma FaceStepKeys(code: string, next: string, st: FaceState, toReal: string -> Option<real>)
    requires DistinctKeys(st.groups)
    requires FaceStep(code, next, st, toReal).Ok?
    ensures Keys(FaceStep(code, next, st, toReal).value.groups) == Dedup(Keys(st.groups) + KeyOf(code), SameKey)
  {
    match PointMap(code)
    case Some(AxisKey(a)) =>
      SetGroupKeys(st.groups, code[1], a, toReal(next).value, st.layer);
    case _ =>
      assert Keys(st.groups) + [] == Keys(st.groups);
      DedupOfDistinct(Keys(st.groups), SameKey);
  }

  /** After the body has run on lines n .. m - 1 the keys are distinct and the old groups keep their place. */
  lemma {:induction false} FaceStepsDistinct(lines: seq<string>, n: nat, m: nat, st: FaceState,
                                             toReal: string -> Option<real>)
    requires n <= m < |lines|
    requires DistinctKeys(st.groups)
    requires Steps(lines, n, m, st, toReal, FaceStep).Ok?
    ensures var g := Steps(lines, n, m, st, toReal, FaceStep).value.groups;
      && DistinctKeys(g)
      && |st.groups| <= |g|
      && forall j :: 0 <= j < |st.groups| ==> g[j].key == st.groups[j].key
    decreases m - n
  {
    if n < m {
      StepsFirst(lines, n, m, st, toReal, FaceStep);
      FaceStepDistinct(lines[n], lines[n + 1], st, toReal);
      FaceStepsDistinct(lines, n + 1, m, FaceStep(lines[n], lines[n + 1], st, toReal).value, toReal);
    }
  }

  /**
   * After the body has run on lines n .. m - 1 the group keys are the old keys
   * followed by the new second characters in the order they were first read,
   * each once.
   */
  lemma {:induction false} FaceStepsKeys(lines: seq<string>, n: nat, m: nat, st: FaceState,
                                         toReal: string -> Option<real>)
    requires n <= m < |lines|
    requires DistinctKeys(st.groups)
    requires Steps(lines, n, m, st, toReal, FaceStep).Ok?
    ensures Keys(Steps(lines, n, m, st, toReal, FaceStep).value.groups)
         == Dedup(Keys(st.groups) + ReadKeys(lines, n, m), SameKey)
    decreases m - n
  {
    var ks := Keys(st.groups);
    if n == m {
      DedupOfDistinct(ks, SameKey);
      assert ks + [] == ks;
    } else {
      StepsFirst(lines, n, m, st, toReal, FaceStep);
      var st' := FaceStep(lines[n], lines[n + 1], st, toReal).value;
      FaceStepDistinct(lines[n], lines[n + 1], st, toReal);
      FaceStepKeys(lines[n], lines[n + 1], st, toReal);
      FaceStepsKeys(lines, n + 1, m, st', toReal);
      DedupAbsorbSplit(ks, KeyOf(lines[n]), ReadKeys(lines, n + 1, m), SameKey);
    }
  }

  /** The codes that set axis `a` of the corner with key `key`. */
  function CornerCode(key: char, a: Axis): string -> bool {
    code => PointMap(code) == Some(AxisKey(a)) && code[1] == key
  }

  /**
   * One pass of the body on an axis code stores the value in the group of the
   * code's key, found where `setdefault` finds it.
   */
  lemma FaceStepHasKey(code: string, next: string, st: FaceState, toReal: string -> Option<real>)
    requires FaceStep(code, next, st, toReal).Ok?
    requires KeyOf(code) != []
    ensures var g := FaceStep(code, next, st, toReal).value.groups;
      var f := FindGroup(st.groups, code[1]);
      f < |g| && g[f].key == code[1]
  {
  }

  /**
   * One pass of the body sets axis `a` of the group at position `j` exactly when
   * the code is that axis's code for the group's key; other groups are unchanged.
   */
  lemma FaceStepCoord(code: string, next: string, st: FaceState, toReal: string -> Option<real>, j: nat, a: Axis)
    requires DistinctKeys(st.groups)
    requires FaceStep(code, next, st, toReal).Ok?
    requires j < |FaceStep(code, next, st, toReal).value.groups|
    ensures var g := FaceStep(code, next, st, toReal).value.groups;
      g[j].c.Get(a) ==
        if CornerCode(g[j].key, a)(code) then toReal(next)
        else if j < |st.groups| then st.groups[j].c.Get(a) else None
  {
    var g := FaceStep(code, next, st, toReal).value.groups;
    match PointMap(code)
    case Some(AxisKey(a0)) =>
      var ch := code[1];
      var f := FindGroup(st.groups, ch);
      if j != f {
        assert j < |st.groups| && g[j] == st.groups[j];
        if f < |st.groups| {
          assert Keys(st.groups)[j] == st.groups[j].key && Keys(st.groups)[f] == ch;
        }
        assert g[j].key != ch;
      }
    case _ =>
  }

  /** A group added after this pass has a key other than the one this pass's code names. */
  lemma FaceLaterGroup(code: string, next: string, st: FaceState, toReal: string -> Option<real>,
                       g: seq<FaceGroup>, j: nat, a: Axis)
    requires FaceStep(code, next, st, toReal).Ok?
    requires var g' := FaceStep(code, next, st, toReal).value.groups;
      && |g'| <= j < |g| && DistinctKeys(g)
      && forall i :: 0 <= i < |g'| ==> g[i].key == g'[i].key
    ensures !CornerCode(g[j].key, a)(code)
  {
    if KeyOf(code) != [] {
      FaceStepHasKey(code, next, st, toReal);
      var f := FindGroup(st.groups, code[1]);
      assert Keys(g)[f] == code[1] && Keys(g)[j] == g[j].key;
    }
  }

  /**
   * After the body has run on lines n .. m - 1, axis `a` of the group at position
   * `j` holds the value of the last of those lines that set it for the group's
   * key, or what it held before (nothing, for a new group).
   */
  lemma {:induction false} FaceStepsCoords(lines: seq<string>, n: nat, m: nat, st: FaceState,
                                           toReal: string -> Option<real>, j: nat, a: Axis)
    requires n <= m < |lines|
    requires DistinctKeys(st.groups)
    requires Steps(lines, n, m, st, toReal, FaceStep).Ok?
    requires j < |Steps(lines, n, m, st, toReal, FaceStep).value.groups|
    ensures var g := Steps(lines, n, m, st, toReal, FaceStep).value.groups;
      var k := LastRead(lines, n, m, CornerCode(g[j].key, a));
      g[j].c.Get(a) ==
        if k.Some? then toReal(lines[k.value + 1]) else if j < |st.groups| then st.groups[j].c.Get(a) else None
    decreases m - n
  {
    if n < m {
      var g := Steps(lines, n, m, st, toReal, FaceStep).value.groups;
      var code, next := lines[n], lines[n + 1];
      StepsFirst(lines, n, m, st, toReal, FaceStep);
      var st' := FaceStep(code, next, st, toReal).value;
      FaceStepDistinct(code, next, st, toReal);
      FaceStepsCoords(lines, n + 1, m, st', toReal, j, a);
      FaceStepsDistinct(lines, n + 1, m, st', toReal);
      var sel := CornerCode(g[j].key, a);
      LastReadStep(lines, n, m, sel);
      if LastRead(lines, n + 1, m, sel).None? {
        if j < |st'.groups| {
          assert g[j].key == st'.groups[j].key;
          FaceStepCoord(code, next, st, toReal, j, a);
        } else {
          FaceLaterGroup(code, next, st, toReal, g, j, a);
        }
      }
    }
  }

  /**
   * The corners of `f` are the groups read in lines n .. m - 1, in the order
   * their keys were first read, and each coordinate is `float()` of the value of
   * the last line that set it for that corner.
   */
  predicate FaceFrom(lines: seq<string>, n: nat, m: nat, f: E3DFace, toReal: string -> Option<real>)
    requires n <= m < |lines|
  {
    var keys := Dedup(ReadKeys(lines, n, m), SameKey);
    && |f.points| == |keys|
    && forall j :: 0 <= j < |keys| ==>
         && ReadInto(lines, n, m, CornerCode(keys[j], X), f.points[j].x, toReal)
         && ReadInto(lines, n, m, CornerCode(keys[j], Y), f.points[j].y, toReal)
         && ReadInto(lines, n, m, CornerCode(keys[j], Z), f.points[j].z, toReal)
  }

  /** From an empty dict, the keys of the groups are the corner digits in the order first read. */
  lemma FaceKeysRead(lines: seq<string>, n: nat, m: nat, toReal: string -> Option<real>)
    requires n <= m < |lines|
    requires Steps(lines, n, m, NoFace, toReal, FaceStep).Ok?
    ensures Keys(Steps(lines, n, m, NoFace, toReal, FaceStep).value.groups) == Dedup(ReadKeys(lines, n, m), SameKey)
  {
    assert Keys([]) == [];
    FaceStepsKeys(lines, n, m, NoFace, toReal);
    assert [] + ReadKeys(lines, n, m) == ReadKeys(lines, n, m);
  }

  /** From an empty dict, an axis a complete group holds is the value last read for it. */
  lemma FaceGroupRead(lines: seq<string>, n: nat, m: nat, toReal: string -> Option<real>,
                      g: seq<FaceGroup>, j: nat, a: Axis)
    requires n <= m < |lines|
    requires Steps(lines, n, m, NoFace, toReal, FaceStep).Ok?
    requires g == Steps(lines, n, m, NoFace, toReal, FaceStep).value.groups
    requires j < |g| && g[j].c.Complete()
    ensures g[j].c.Get(a).Some?
    ensures ReadInto(lines, n, m, CornerCode(g[j].key, a), g[j].c.Get(a).value, toReal)
  {
    assert Keys([]) == [];
    FaceStepsCoords(lines, n, m, NoFace, toReal, j, a);
  }

  /** `FaceGroupRead` for every complete group and axis. */
  lemma FaceGroupsRead(lines: seq<string>, n: nat, m: nat, toReal: string -> Option<real>, g: seq<FaceGroup>)
    requires n <= m < |lines|
    requires Steps(lines, n, m, NoFace, toReal, FaceStep).Ok?
    requires g == Steps(lines, n, m, NoFace, toReal, FaceStep).value.groups
    requires AllComplete(g)
    ensures forall j, a :: 0 <= j < |g| ==>
      ReadInto(lines, n, m, CornerCode(g[j].key, a), g[j].c.Get(a).value, toReal)
  {
    forall j, a | 0 <= j < |g|
      ensures ReadInto(lines, n, m, CornerCode(g[j].key, a), g[j].c.Get(a).value, toReal)
    {
      FaceGroupRead(lines, n, m, toReal, g, j, a);
    }
  }

  /** Groups keyed in first-read order, each axis holding its last value, give the face `FaceFrom` describes. */
  lemma CornersRead(lines: seq<string>, n: nat, m: nat, toReal: string -> Option<real>, g: seq<FaceGroup>, layer: Layer)
    requires n <= m < |lines|
    requires AllComplete(g) && Keys(g) == Dedup(ReadKeys(lines, n, m), SameKey)
    requires forall j, a :: 0 <= j < |g| ==>
      ReadInto(lines, n, m, CornerCode(g[j].key, a), g[j].c.Get(a).value, toReal)
    ensures FaceFrom(lines, n, m, E3DFace(Corners(g), layer), toReal)
  {
    var keys := Dedup(ReadKeys(lines, n, m), SameKey);
    var ps := Corners(g);
    forall j | 0 <= j < |keys|
      ensures && ReadInto(lines, n, m, CornerCode(keys[j], X), ps[j].x, toReal)
              && ReadInto(lines, n, m, CornerCode(keys[j], Y), ps[j].y, toReal)
              && ReadInto(lines, n, m, CornerCode(keys[j], Z), ps[j].z, toReal)
    {
      assert keys[j] == Keys(g)[j] == g[j].key;
      assert g[j].c.Get(X) == g[j].c.x && g[j].c.Get(Y) == g[j].c.y && g[j].c.Get(Z) == g[j].c.z;
      assert ReadInto(lines, n, m, CornerCode(g[j].key, X), g[j].c.Get(X).value, toReal);
      assert ReadInto(lines, n, m, CornerCode(g[j].key, Y), g[j].c.Get(Y).value, toReal);
      assert ReadInto(lines, n, m, CornerCode(g[j].key, Z), g[j].c.Get(Z).value, toReal);
    }
  }

  /** At a break, the face built has four corners, each holding the values last read for it. */
  lemma FaceReadsAt(lines: seq<string>, n: nat, k: nat, toReal: string -> Option<real>)
    requires n <= k && k + 1 < |lines|
    requires BreaksAt(lines, n, k, NoFace, toReal, FaceStep, FaceStops)
    ensures var r := MakeFace(Steps(lines, n, k + 1, NoFace, toReal, FaceStep).value);
      r.Ok? && |r.value.points| == 4 && FaceFrom(lines, n, k + 1, r.value, toReal)
  {
    var st := Steps(lines, n, k + 1, NoFace, toReal, FaceStep).value;
    assert FaceStops(lines[k], st);
    FaceKeysRead(lines, n, k + 1, toReal);
    FaceGroupsRead(lines, n, k + 1, toReal, st.groups);
    CornersRead(lines, n, k + 1, toReal, st.groups, st.layer);
  }

  /**
   * A face parsed by a loop that runs comes from a break at some line k with a
   * line after it; it has four corners, one per distinct corner digit in the
   * order first read, each holding the values last read for it.
   */
  lemma FaceScanReads(lines: seq<string>, n: nat, toReal: string -> Option<real>)
    requires n < |lines|
    ensures var r := FaceScan(lines, n, NoFace, toReal);
      r.Ok? ==> exists k :: n <= k && k + 1 < |lines| && BreaksAt(lines, n, k, NoFace, toReal, FaceStep, FaceStops)
                           && |r.value.points| == 4 && FaceFrom(lines, n, k + 1, r.value, toReal)
  {
    if FaceScan(lines, n, NoFace, toReal).Ok? {
      ScanBreaks(lines, n, NoFace, toReal, FaceStep, FaceStops, MakeFace);
      var k :| n <= k && k + 1 < |lines| && BreaksAt(lines, n, k, NoFace, toReal, FaceStep, FaceStops)
        && Scan(lines, n, NoFace, toReal, FaceStep, FaceStops, MakeFace)
           == MakeFace(Steps(lines, n, k + 1, NoFace, toReal, FaceStep).value);
      FaceReadsAt(lines, n, k, toReal);
    }
  }

  // --------------------------------------------------------------- DXFParser

  /** The lines that select a parser in `PARSER_MAP`. */
  predicate Keyword(s: string) {
    s == "POINT" || s == "LINE" || s == "3DFACE"
  }

  /** Some line before `i` reads ENTITIES: the flag `in_entities_section` at line `i`. */
  predicate EntitiesSeen(lines: seq<string>, i: int) {
    exists j :: 0 <= j < i && j < |lines| && lines[j] == "ENTITIES"
  }

  /** Whether the loop of `DXFParser.parse` breaks at line `k`. */
  predicate StopsAt(lines: seq<string>, k: nat)
    requires k < |lines|
  {
    EntitiesSeen(lines, k) && lines[k] == "ENDSEC"
  }

  /** The first line from `k` on where the loop breaks, or the end of the text. */
  function StopFrom(lines: seq<string>, k: nat): (stop: nat)
    requires k <= |lines|
    ensures k <= stop <= |lines|
    ensures stop < |lines| ==> StopsAt(lines, stop)
    ensures forall j :: k <= j < stop ==> !StopsAt(lines, j)
    decreases |lines| - k
  {
    if k == |lines| then k
    else if StopsAt(lines, k) then k
    else StopFrom(lines, k + 1)
  }

  /** The line at which `DXFParser.parse` stops: the first ENDSEC after an ENTITIES line. */
  function Stop(lines: seq<string>): nat {
    StopFrom(lines, 0)
  }

  /** The positions below `n` whose stripped text is POINT, LINE or 3DFACE, in line order. */
  function TriggersBelow(lines: seq<string>, n: nat): (ks: seq<nat>)
    requires n <= |lines|
  {
    if n == 0 then [] else TriggersBelow(lines, n - 1) + (if Keyword(lines[n - 1]) then [n - 1] else [])
  }

  /** The triggers are exactly the keyword lines below `n`, in increasing order. */
  lemma {:induction false} TriggersBelowSpec(lines: seq<string>, n: nat)
    requires n <= |lines|
    ensures forall k: nat :: k in TriggersBelow(lines, n) <==> k < n && Keyword(lines[k])
    ensures forall a, b :: 0 <= a < b < |TriggersBelow(lines, n)| ==>
      TriggersBelow(lines, n)[a] < TriggersBelow(lines, n)[b]
  {
    if n > 0 {
      TriggersBelowSpec(lines, n - 1);
      var ks := TriggersBelow(lines, n - 1);
      var r := TriggersBelow(lines, n);
      forall a, b | 0 <= a < b < |r| ensures r[a] < r[b] {
        assert r[a] == ks[a] && ks[a] in ks;
        if b < |ks| {
          assert r[b] == ks[b] && ks[a] < ks[b];
        } else {
          assert r == ks + [n - 1] && r[b] == n - 1;
          assert ks[a] < n - 1;
        }
      }
    }
  }

  /** The lines on which `DXFParser.parse` runs a parser. */
  function Triggers(lines: seq<string>): seq<nat> {
    TriggersBelow(lines, Stop(lines))
  }

  datatype Entity = PointEntity(p: Point) | LineEntity(l: Line) | FaceEntity(f: E3DFace)

  /** `PARSER_MAP[line].parse(k, lines)` for a keyword line `k`. */
  function ParseAt(lines: seq<string>, k: nat, toReal: string -> Option<real>): Result<Entity>
    requires k < |lines| && Keyword(lines[k])
  {
    var kw := lines[k];
    if kw == "POINT" then
      match PointScan(lines, k + 1, NoPoint, toReal)
      case Ok(p) => Ok(PointEntity(p))
      case Err(e) => Err(e)
    else if kw == "LINE" then
      match LineScan(lines, k + 1, NoLine, toReal)
      case Ok(l) => Ok(LineEntity(l))
      case Err(e) => Err(e)
    else
      match FaceScan(lines, k + 1, NoFace, toReal)
      case Ok(f) => Ok(FaceEntity(f))
      case Err(e) => Err(e)
  }

  /**
   * `PARSER_MAP[lines[k]].parse(k, lines)` as a function of the position: a line
   * that is not a key of `PARSER_MAP` raises KeyError.
   */
  function ParserAt(lines: seq<string>, toReal: string -> Option<real>): nat -> Result<Entity> {
    (k: nat) => if k < |lines| && Keyword(lines[k]) then ParseAt(lines, k, toReal) else Err(KeyError)
  }

  /** The three lists of the `entities` dict. */
  datatype Parsed = Parsed(points: seq<Point>, lines: seq<Line>, faces: seq<E3DFace>) {
    function Add(e: Entity): Parsed {
      match e
      case PointEntity(p) => this.(points := points + [p])
      case LineEntity(l) => this.(lines := lines + [l])
      case FaceEntity(f) => this.(faces := faces + [f])
    }

    function Size(): nat {
      |points| + |lines| + |faces|
    }

    /** Each list followed by the matching list of `more`. */
    function Concat(more: Parsed): Parsed {
      Parsed(points + more.points, lines + more.lines, faces + more.faces)
    }
  }

  lemma ConcatEmpty(a: Parsed)
    ensures a.Concat(Parsed([], [], [])) == a
  {
    assert a.points + [] == a.points && a.lines + [] == a.lines && a.faces + [] == a.faces;
  }

  lemma ConcatAdd(a: Parsed, b: Parsed, e: Entity)
    ensures a.Concat(b.Add(e)) == a.Concat(b).Add(e)
  {
    match e
    case PointEntity(p) => assert a.points + (b.points + [p]) == (a.points + b.points) + [p];
    case LineEntity(l) => assert a.lines + (b.lines + [l]) == (a.lines + b.lines) + [l];
    case FaceEntity(f) => assert a.faces + (b.faces + [f]) == (a.faces + b.faces) + [f];
  }

  /** The entities appended so far and the exception that ended the parse, if any. */
  datatype Outcome = Outcome(parsed: Parsed, error: Option<Error>)

  /** Runs the parser at each position of `ks` in order; the first exception ends the run. */
  function Collect(ks: seq<nat>, parse: nat -> Result<Entity>): Outcome {
    if ks == [] then Outcome(Parsed([], [], []), None)
    else
      var o := Collect(ks[..|ks| - 1], parse);
      if o.error.Some? then o
      else match parse(ks[|ks| - 1])
        case Ok(e) => Outcome(o.parsed.Add(e), None)
        case Err(err) => Outcome(o.parsed, Some(err))
  }

  /** Without an exception every trigger line adds one entity; with one, fewer are added. */
  lemma {:induction false} CollectSize(ks: seq<nat>, parse: nat -> Result<Entity>)
    ensures var o := Collect(ks, parse);
      (o.error.None? ==> o.parsed.Size() == |ks|) && (o.error.Some? ==> o.parsed.Size() < |ks|)
  {
    if ks != [] {
      CollectSize(ks[..|ks| - 1], parse);
    }
  }

  /**
   * The entity lists shared by every `DXFParser`: the class attribute `entities`,
   * whose lists `parse` appends to and never clears.
   */
  class EntityStore {
    var points: seq<Point>
    var lines: seq<Line>
    var faces: seq<E3DFace>

    constructor ()
      ensures Contents() == Parsed([], [], [])
    {
      points, lines, faces := [], [], [];
    }

    function Contents(): Parsed
      reads this
    {
      Parsed(points, lines, faces)
    }

    /** `entities[kind].append(entity)` on the list for the entity's kind. */
    method Append(e: Entity)
      modifies this
      ensures Contents() == old(Contents()).Add(e)
    {
      match e
      case PointEntity(p) => points := points + [p];
      case LineEntity(l) => lines := lines + [l];
      case FaceEntity(f) => faces := faces + [f];
    }
  }

  /** Runs the parser that `PARSER_MAP` names for the keyword line `i`. */
  method ParseEntity(i: nat, lines: seq<string>, toReal: string -> Option<real>) returns (r: Result<Entity>)
    requires i < |lines| && Keyword(Strip(lines[i]))
    ensures r == ParseAt(StripAll(lines), i, toReal)
  {
    var kw := Strip(lines[i]);
    if kw == "POINT" {
      var p := ParsePoint(i, lines, toReal);
      r := if p.Ok? then Ok(PointEntity(p.value)) else Err(p.error);
    } else if kw == "LINE" {
      var l := ParseLine(i, lines, toReal);
      r := if l.Ok? then Ok(LineEntity(l.value)) else Err(l.error);
    } else {
      var f := ParseFace(i, lines, toReal);
      r := if f.Ok? then Ok(FaceEntity(f.value)) else Err(f.error);
    }
  }

  class DXFParser {
    var dxfLines: seq<string>
    /** The class attribute, the same store for every instance. */
    const entities: EntityStore

    /** A parser over the lines of a text, sharing the store `shared`. */
    constructor (lines: seq<string>, shared: EntityStore)
      ensures dxfLines == lines && entities == shared
    {
      dxfLines := lines;
      entities := shared;
    }

    /**
     * `DXFParser.parse`: the entities of every trigger line, in line order, are
     * appended to the shared lists; an exception leaves the entities appended
     * before it in place.
     */
    method Parse(toReal: string -> Option<real>) returns (r: Result<EntityStore>)
      modifies entities
      ensures var o := Collect(Triggers(StripAll(dxfLines)), ParserAt(StripAll(dxfLines), toReal));
        && entities.Contents() == old(entities.Contents()).Concat(o.parsed)
        && (r.Ok? <==> o.error.None?)
        && (r.Ok? ==> r.value == entities)
        && (r.Err? ==> r.error == o.error.value)
    {
      ghost var t := StripAll(dxfLines);
      ghost var acc := Parsed([], [], []);
      ghost var parse := ParserAt(t, toReal);
      ghost var total := Run(t, 0, false, acc, parse);
      var inEntitiesSection := false;
      var i := 0;
      while i < |dxfLines|
        invariant i <= |dxfLines|
        invariant Run(t, i, inEntitiesSection, acc, parse) == total
        invariant entities.Contents() == old(entities.Contents()).Concat(acc)
      {
        var line := Strip(dxfLines[i]);
        assert line == t[i];
        if line == "ENTITIES" {
          inEntitiesSection := true;
        } else if inEntitiesSection && line == "ENDSEC" {
          break;
        } else if Keyword(line) {
          var e := ParseEntity(i, dxfLines, toReal);
          if e.Err? {
            RunIsCollect(t, parse);
            return Err(e.error);
          }
          assert parse(i) == e;
          RunKeywordStep(t, i, inEntitiesSection, acc, parse);
          ConcatAdd(old(entities.Contents()), acc, e.value);
          acc := acc.Add(e.value);
          entities.Append(e.value);
        }
        i := i + 1;
      }
      RunIsCollect(t, parse);
      r := Ok(entities);
    }
  }

  /**
   * The loop of `DXFParser.parse` from line `i` on, with the flag `seen` and the
   * entities `acc` appended so far.
   */
  function Run(lines: seq<string>, i: nat, seen: bool, acc: Parsed, parse: nat -> Result<Entity>): Outcome
    decreases |lines| - i
  {
    if i >= |lines| then Outcome(acc, None)
    else if lines[i] == "ENTITIES" then Run(lines, i + 1, true, acc, parse)
    else if seen && lines[i] == "ENDSEC" then Outcome(acc, None)
    else if Keyword(lines[i]) then
      match parse(i)
      case Err(e) => Outcome(acc, Some(e))
      case Ok(e) => Run(lines, i + 1, seen, acc.Add(e), parse)
    else Run(lines, i + 1, seen, acc, parse)
  }

  /** A keyword line whose parser succeeds adds its entity and moves on. */
  lemma RunKeywordStep(lines: seq<string>, i: nat, seen: bool, acc: Parsed, parse: nat -> Result<Entity>)
    requires i < |lines| && Keyword(lines[i]) && parse(i).Ok?
    ensures Run(lines, i, seen, acc, parse) == Run(lines, i + 1, seen, acc.Add(parse(i).value), parse)
  {
  }

  /** The loop runs the parsers of the trigger lines in order and stops at the first exception. */
  lemma RunIsCollect(lines: seq<string>, parse: nat -> Result<Entity>)
    ensures Run(lines, 0, false, Parsed([], [], []), parse) == Collect(Triggers(lines), parse)
  {
    assert !EntitiesSeen(lines, 0);
    RunFrom(lines, 0, parse);
  }

  lemma {:induction false} RunFrom(lines: seq<string>, i: nat, parse: nat -> Result<Entity>)
    requires i <= Stop(lines)
    requires Collect(TriggersBelow(lines, i), parse).error.None?
    ensures Run(lines, i, EntitiesSeen(lines, i), Collect(TriggersBelow(lines, i), parse).parsed, parse)
      == Collect(Triggers(lines), parse)
    decreases |lines| - i
  {
    if i < Stop(lines) {
      RunFromStep(lines, i, parse);
      if Collect(TriggersBelow(lines, i + 1), parse).error.Some? {
        CollectErrorSticks(lines, i + 1, Stop(lines), parse);
      } else {
        RunFrom(lines, i + 1, parse);
      }
    }
  }

  /** One line of the loop before the break, against one more line of triggers. */
  lemma RunFromStep(lines: seq<string>, i: nat, parse: nat -> Result<Entity>)
    requires i < Stop(lines)
    requires Collect(TriggersBelow(lines, i), parse).error.None?
    ensures var o := Collect(TriggersBelow(lines, i + 1), parse);
      Run(lines, i, EntitiesSeen(lines, i), Collect(TriggersBelow(lines, i), parse).parsed, parse)
      == if o.error.Some? then o else Run(lines, i + 1, EntitiesSeen(lines, i + 1), o.parsed, parse)
  {
    assert !StopsAt(lines, i);
    EntitiesSeenStep(lines, i);
    TriggersStep(lines, i);
    CollectAppend(TriggersBelow(lines, i), i, parse);
  }

  /** Once a parser has raised, no later trigger line changes the outcome. */
  lemma {:induction false} CollectErrorSticks(lines: seq<string>, i: nat, j: nat, parse: nat -> Result<Entity>)
    requires i <= j <= |lines|
    requires Collect(TriggersBelow(lines, i), parse).error.Some?
    ensures Collect(TriggersBelow(lines, j), parse) == Collect(TriggersBelow(lines, i), parse)
    decreases j - i
  {
    if i < j {
      CollectErrorSticks(lines, i, j - 1, parse);
      TriggersStep(lines, j - 1);
      CollectAppend(TriggersBelow(lines, j - 1), j - 1, parse);
    }
  }

  /** One more line adds its position to the triggers exactly when it is a keyword. */
  lemma TriggersStep(lines: seq<string>, i: nat)
    requires i < |lines|
    ensures var ks := TriggersBelow(lines, i + 1);
      && (Keyword(lines[i]) ==> ks == TriggersBelow(lines, i) + [i])
      && (!Keyword(lines[i]) ==> ks == TriggersBelow(lines, i))
  {
  }

  /** Appending one position runs one more parser. */
  lemma CollectAppend(ks: seq<nat>, k: nat, parse: nat -> Result<Entity>)
    ensures Collect(ks + [k], parse) ==
      var o := Collect(ks, parse);
      if o.error.Some? then o
      else match parse(k)
        case Ok(e) => Outcome(o.parsed.Add(e), None)
        case Err(err) => Outcome(o.parsed, Some(err))
  {
    assert (ks + [k])[..|ks|] == ks;
  }

  lemma EntitiesSeenStep(lines: seq<string>, i: nat)
    requires i < |lines|
    ensures EntitiesSeen(lines, i + 1) <==> EntitiesSeen(lines, i) || lines[i] == "ENTITIES"
  {
    if EntitiesSeen(lines, i + 1) && !EntitiesSeen(lines, i) {
      var j :| 0 <= j < i + 1 && j < |lines| && lines[j] == "ENTITIES";
      assert j == i;
    }
  }

  /**
   * A keyword before the ENTITIES line, and one in the value position of a group
   * code, both run a parser; an ENDSEC before ENTITIES does not stop the loop;
   * nothing after the first ENDSEC that follows ENTITIES runs.
   */
  lemma TriggersExample()
    ensures Triggers(["ENDSEC", "8", "POINT", "ENTITIES", "LINE", "ENDSEC", "3DFACE"]) == [2, 4]
  {
    var t := ["ENDSEC", "8", "POINT", "ENTITIES", "LINE", "ENDSEC", "3DFACE"];
    assert !EntitiesSeen(t, 0) && !EntitiesSeen(t, 1) && !EntitiesSeen(t, 2) && !EntitiesSeen(t, 3);
    assert t[3] == "ENTITIES" && EntitiesSeen(t, 5);
    assert !StopsAt(t, 0) && !StopsAt(t, 1) && !StopsAt(t, 2) && !StopsAt(t, 3) && !StopsAt(t, 4);
    assert StopsAt(t, 5);
    assert StopFrom(t, 5) == 5;
    assert Stop(t) == 5;
    assert !Keyword(t[0]) && !Keyword(t[1]) && Keyword(t[2]) && !Keyword(t[3]) && Keyword(t[4]);
    assert TriggersBelow(t, 2) == [];
    assert TriggersBelow(t, 4) == [2];
  }
}
