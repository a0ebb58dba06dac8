/**
 * The drawing entities of lesson02/entities.py: layers whose validity and
 * `unique_name` are decoded from the layer name, points compared within a
 * tolerance, lines and 3D faces.
 */
module Entities {
  import opened Wrappers
  import opened Text
  import opened Patterns

  /** `EntityType.POINT`, `EntityType.LINE`, `EntityType.E3DFACE`. */
  datatype EntityType = PointType | LineType | E3DFaceType

  /**
   * A constructed `Layer`. The dataclass compares its three fields, which is
   * what datatype equality does; `__hash__` hashes `unique_name` only.
   */
  datatype Layer = Layer(name: string, uniqueName: string, kind: EntityType) {
    /** `Layer.is_valid`. */
    predicate IsValid() {
      NameIsValid(name, kind)
    }

    /** What `Layer.__hash__` hashes. */
    function HashKey(): string {
      uniqueName
    }
  }

  /**
   * The test `is_valid` performs: LINE and E3DFACE layers need a match of
   * `B\s*(\d+)\s*H\s*(\d+)` (both types use the same pattern), every other type is valid.
   */
  predicate NameIsValid(name: string, kind: EntityType) {
    match kind
    case LineType => HasLayerCode(name)
    case E3DFaceType => HasLayerCode(name)
    case PointType => true
  }

  /** `str(float(c))` for one decimal digit `c`. */
  function DigitAsFloat(c: char): string
    requires IsDigit(c)
  {
    [c] + ".0"
  }

  function DigitFloats(d: string): (parts: seq<string>)
    requires AllDigits(d)
    ensures |parts| == |d|
    ensures forall k :: 0 <= k < |d| ==> parts[k] == DigitAsFloat(d[k])
  {
    seq(|d|, k requires 0 <= k < |d| => DigitAsFloat(d[k]))
  }

  /**
   * `" ".join([str(float(i)) for i in digits])`: iterating a string visits its
   * characters, so each single digit is rendered on its own.
   */
  function SpacedDigits(d: string): string
    requires AllDigits(d)
  {
    Join(" ", DigitFloats(d))
  }

  /** Reads back the digits from a `SpacedDigits` rendering: one in every four characters. */
  function ReadSpacedDigits(u: string): string
    decreases |u|
  {
    if |u| < 3 then [] else [u[0]] + (if |u| > 3 then ReadSpacedDigits(u[4..]) else [])
  }

  /** The `unique_name` of a valid layer keeps every digit of the number: it is decodable. */
  lemma {:induction false} SpacedDigitsRoundTrip(d: string)
    requires AllDigits(d)
    ensures ReadSpacedDigits(SpacedDigits(d)) == d
    ensures |SpacedDigits(d)| == if d == [] then 0 else 4 * |d| - 1
  {
    if |d| > 1 {
      var parts := DigitFloats(d);
      assert parts[1..] == DigitFloats(d[1..]);
      SpacedDigitsRoundTrip(d[1..]);
      var u := SpacedDigits(d);
      assert u == DigitAsFloat(d[0]) + " " + SpacedDigits(d[1..]);
      assert u[4..] == SpacedDigits(d[1..]);
      assert d == [d[0]] + d[1..];
    } else if |d| == 1 {
      assert d == [d[0]];
    }
  }

  /**
   * `Layer(name=name, type=kind)`: `__post_init__` sets `unique_name` from the
   * FIRST `H<digits>` match of a valid name (`findall(...)[0]`, an IndexError when
   * there is none) and to the name itself for an invalid one.
   */
  function NewLayer(name: string, kind: EntityType): (r: Result<Layer>)
    ensures r.Ok? ==> r.value.name == name && r.value.kind == kind
    ensures r.Ok? ==> (r.value.IsValid() <==> NameIsValid(name, kind))
    ensures r.Ok? && !NameIsValid(name, kind) ==> r.value.uniqueName == name
    ensures r.Ok? && NameIsValid(name, kind) ==>
      FirstHNumber(name).Some? && r.value.uniqueName == SpacedDigits(FirstHNumber(name).value)
    ensures r.Err? <==> kind == PointType && FirstHNumber(name).None?
    ensures r.Err? ==> r.error == IndexError
  {
    if NameIsValid(name, kind) then
      if kind != PointType then LayerCodeHasH(name); Ok(Layer(name, SpacedDigits(FirstHNumber(name).value), kind))
      else match FirstHNumber(name)
        case None => Err(IndexError)
        case Some(d) => Ok(Layer(name, SpacedDigits(d), kind))
    else Ok(Layer(name, name, kind))
  }

  /** LINE and E3DFACE layers are always constructed: a name valid for them has an H number. */
  lemma ShapeLayerConstructs(name: string, kind: EntityType)
    requires kind != PointType
    ensures NewLayer(name, kind).Ok?
  {
  }

  /** A LINE or E3DFACE layer, whose construction never raises. */
  function ShapeLayer(name: string, kind: EntityType): (l: Layer)
    requires kind != PointType
    ensures l.name == name && l.kind == kind
  {
    ShapeLayerConstructs(name, kind);
    NewLayer(name, kind).value
  }

  lemma ShapeLayerIsNewLayer(name: string, kind: EntityType)
    requires kind != PointType
    ensures NewLayer(name, kind) == Ok(ShapeLayer(name, kind))
  {
  }

  /** The default of `Point.accuracy`. */
  const DefaultAccuracy: real := 0.005

  function Abs(r: real): real {
    if r < 0.0 then -r else r
  }

  /** Coordinates only, without the layer. */
  datatype Xyz = Xyz(x: real, y: real, z: real)

  datatype Point = Point(x: real, y: real, z: real, layer: Layer, accuracy: real) {
    /** `Point.__eq__`: each axis within the receiver's accuracy. */
    predicate Equals(other: Point) {
      && Abs(x - other.x) <= accuracy
      && Abs(y - other.y) <= accuracy
      && Abs(z - other.z) <= accuracy
    }

    /** What `Point.__hash__` hashes: the exact coordinates. */
    function HashKey(): Xyz {
      Xyz(x, y, z)
    }

    function Coords(): Xyz {
      Xyz(x, y, z)
    }
  }

  /** `Point(x, y, z, layer)` with the default accuracy. */
  function NewPoint(x: real, y: real, z: real, layer: Layer): Point {
    Point(x, y, z, layer, DefaultAccuracy)
  }

  /** The relation `==` on points, receiver first, for the list operations. */
  function PointEquals(a: Point, b: Point): bool {
    a.Equals(b)
  }

  datatype Line = Line(start: Point, end: Point, layer: Layer)

  datatype E3DFace = E3DFace(points: seq<Point>, layer: Layer)

  /** Equality holds exactly when no axis differs by more than the receiver's accuracy. */
  lemma EqualsMeaning(a: Point, b: Point)
    ensures a.Equals(b) <==>
              !(|| a.x - b.x > a.accuracy || b.x - a.x > a.accuracy
                || a.y - b.y > a.accuracy || b.y - a.y > a.accuracy
                || a.z - b.z > a.accuracy || b.z - a.z > a.accuracy)
  {
  }

  /** A point equals itself exactly when its accuracy is not negative. */
  lemma EqualsReflexive(a: Point)
    ensures a.Equals(a) <==> a.accuracy >= 0.0
  {
  }

  /** With equal accuracies the order of the operands does not matter. */
  lemma EqualsSymmetric(a: Point, b: Point)
    requires a.accuracy == b.accuracy
    ensures a.Equals(b) <==> b.Equals(a)
  {
  }

  /** The tolerance relation is not transitive: 0, 0.004 and 0.008 on one axis. */
  lemma EqualsNotTransitive(l: Layer)
    ensures NewPoint(0.0, 0.0, 0.0, l).Equals(NewPoint(0.004, 0.0, 0.0, l))
    ensures NewPoint(0.004, 0.0, 0.0, l).Equals(NewPoint(0.008, 0.0, 0.0, l))
    ensures !NewPoint(0.0, 0.0, 0.0, l).Equals(NewPoint(0.008, 0.0, 0.0, l))
  {
  }

  /** Equal points may hash differently: `__hash__` ignores the tolerance. */
  lemma EqualPointsMayHashApart(l: Layer)
    ensures NewPoint(0.0, 0.0, 0.0, l).Equals(NewPoint(0.004, 0.0, 0.0, l))
    ensures NewPoint(0.0, 0.0, 0.0, l).HashKey() != NewPoint(0.004, 0.0, 0.0, l).HashKey()
  {
  }

  /** Equal layers hash alike; layers with one `unique_name` but other names hash alike and differ. */
  lemma LayerHashConsistent(a: Layer, b: Layer)
    ensures a == b ==> a.HashKey() == b.HashKey()
    ensures a.uniqueName == b.uniqueName && a.name != b.name ==> a.HashKey() == b.HashKey() && a != b
  {
  }

  /** "B12 H34" as a LINE layer: valid, and `unique_name` holds the digits of 34 only. */
  lemma LineLayerExample()
    ensures NewLayer("B12 H34", LineType) == Ok(Layer("B12 H34", "3.0 4.0", LineType))
  {
    LineLayerExampleCode();
    LineLayerExampleDigits();
  }

  /** "B12 H34" has a B/H code, and its first H number is 34. */
  lemma LineLayerExampleCode()
    ensures HasLayerCode("B12 H34") && FirstHNumber("B12 H34") == Some("34")
  {
    LineLayerExampleBH();
    LineLayerExampleH();
  }

  /** The B/H code of "B12 H34" starts at its first character. */
  lemma LineLayerExampleBH()
    ensures BHAt("B12 H34", 0)
  {
    var s := "B12 H34";
    assert SkipWhile(s, 1, IsPySpace) == 1;
    assert SkipWhile(s, 3, IsDigit) == 3;
    assert SkipWhile(s, 1, IsDigit) == 3;
    assert SkipWhile(s, 3, IsPySpace) == 4;
    assert SkipWhile(s, 5, IsPySpace) == 5;
  }

  /** The first H of "B12 H34" that a digit run follows is at position 4, before "34". */
  lemma LineLayerExampleH()
    ensures FirstHNumber("B12 H34") == Some("34")
  {
    var s := "B12 H34";
    assert !HAt(s, 0) && !HAt(s, 1) && !HAt(s, 2) && !HAt(s, 3);
    assert SkipWhile(s, 5, IsPySpace) == 5;
    assert SkipWhile(s, 7, IsDigit) == 7;
    assert SkipWhile(s, 5, IsDigit) == 7;
    assert HCapture(s, 4) == "34";
    assert FirstHFrom(s, 4) == Some("34");
  }

  /** The digits 34 render as "3.0 4.0". */
  lemma LineLayerExampleDigits()
    ensures AllDigits("34") && SpacedDigits("34") == "3.0 4.0"
  {
    var parts := DigitFloats("34");
    assert parts[0] == DigitAsFloat('3') == "3.0";
    assert parts[1] == DigitAsFloat('4') == "4.0";
    assert parts == ["3.0", "4.0"];
  }

  /** A LINE layer whose name has no B/H code is invalid and keeps its name. */
  lemma InvalidLineLayerExample()
    ensures NewLayer("randomlayer", LineType) == Ok(Layer("randomlayer", "randomlayer", LineType))
  {
    NoBNoSearch("randomlayer", 0);
  }

  /** A POINT layer is always valid, so a name with no H number raises IndexError. */
  lemma PointLayerWithoutNumber()
    ensures NewLayer("0", PointType) == Err(IndexError)
  {
    assert !HAt("0", 0);
  }
}
