/**
 * lesson02/dxf_parser2.py: a reader that collects the values of the group codes
 * of the pending entity in a dict and runs that entity's parser when the next
 * code 0 arrives.
 *
 * As written, the reader never produces anything:
 * - `parse` only looks at lines whose stripped text has exactly two characters,
 *   and unpacks them into a one-character code and a one-character value;
 * - `current_entity` starts as "" and changes only after a parser ran, which needs
 *   `current_entity` to be a key of `PARSER_MAP`;
 * - and every parser calls `Point(x=..., y=..., z=...)` without the `layer`
 *   argument `Point` requires, which raises TypeError.
 */
module DxfParser2 {
  import opened Wrappers
  import opened Text
  import opened Entities
  import opened GroupCodes
  import opened DxfParser

  /** `Point(x=c.x, y=c.y, z=c.z)`: the required field `layer` is missing. */
  function CallPoint(c: Xyz): (r: Result<Point>) {
    Construct((l: Layer) => NewPoint(c.x, c.y, c.z, l), None)
  }

  /** A dataclass call `make(...)` that may lack its required `layer` argument. */
  function Construct<T>(make: Layer -> T, layer: Option<Layer>): Result<T> {
    match layer
    case None => Err(TypeError)
    case Some(l) => Ok(make(l))
  }

  /** `PointParser.parse`: the point of codes 10/20/30. */
  function PointParse(data: map<string, real>): Result<Point> {
    CallPoint(CodePoint(data, 0))
  }

  /** `LineParser.parse`: start from 10/20/30, end from 11/21/31, then `Line(start=, end=)`. */
  function LineParse(data: map<string, real>): Result<Line> {
    var start, end := CodePoint(data, 0), CodePoint(data, 1);
    match CallPoint(start)
    case Err(e) => Err(e)
    case Ok(s) =>
      match CallPoint(end)
      case Err(e) => Err(e)
      case Ok(t) => Construct((l: Layer) => Line(s, t, l), None)
  }

  /** The `Point(...)` calls of a list display, evaluated left to right: the first exception wins. */
  function CallPoints(cs: seq<Xyz>): Result<seq<Point>> {
    if cs == [] then Ok([])
    else
      var rest := CallPoints(cs[1..]);
      match CallPoint(cs[0])
      case Err(e) => Err(e)
      case Ok(p) =>
        match rest
        case Err(e) => Err(e)
        case Ok(ps) => Ok([p] + ps)
  }

  /** The four corners the face parser reads, in 10, 11, 12, 13 order. */
  function FaceCorners(data: map<string, real>): (cs: seq<Xyz>)
    ensures |cs| == 4 && forall n :: 0 <= n < 4 ==> cs[n] == CodePoint(data, n)
  {
    [CodePoint(data, 0), CodePoint(data, 1), CodePoint(data, 2), CodePoint(data, 3)]
  }

  /** `E3DFaceParser.parse`: the four corner points, then `E3DFace([...])`. */
  function FaceParse(data: map<string, real>): Result<E3DFace> {
    match CallPoints(FaceCorners(data))
    case Err(e) => Err(e)
    case Ok(ps) => Construct((l: Layer) => E3DFace(ps, l), None)
  }

  /** The keys of `PARSER_MAP`. */
  predicate IsParserKey(kind: string) {
    kind == "POINT" || kind == "LINE" || kind == "3DFACE"
  }

  /** `PARSER_MAP[kind].parse(data)`. */
  function ParseData(kind: string, data: map<string, real>): Result<Entity>
    requires IsParserKey(kind)
  {
    if kind == "POINT" then
      match PointParse(data)
      case Ok(p) => Ok(PointEntity(p))
      case Err(e) => Err(e)
    else if kind == "LINE" then
      match LineParse(data)
      case Ok(l) => Ok(LineEntity(l))
      case Err(e) => Err(e)
    else
      match FaceParse(data)
      case Ok(f) => Ok(FaceEntity(f))
      case Err(e) => Err(e)
  }

  /** Every parser raises TypeError, whatever was collected. */
  lemma ParsersRaise(kind: string, data: map<string, real>)
    requires IsParserKey(kind)
    ensures ParseData(kind, data) == Err(TypeError)
  {
  }

  /** `current_data[code] = float(value)`, where a ValueError leaves the dict as it was. */
  function Store(data: map<string, real>, code: string, f: Option<real>): map<string, real> {
    match f
    case Some(v) => data[code := v]
    case None => data
  }

  /**
   * The loop of `DXFParser.parse` from line `i` of the stripped lines on, with the
   * pending entity type, its collected fields and the entities appended so far.
   */
  function Loop(lines: seq<string>, i: nat, entity: string, data: map<string, real>, acc: Parsed,
               toReal: string -> Option<real>): Outcome
    decreases |lines| - i
  {
    if i >= |lines| then Outcome(acc, None)
    else if |lines[i]| != 2 then Loop(lines, i + 1, entity, data, acc, toReal)
    else
      var code := lines[i][..1];
      var value := lines[i][1..];
      if code == "0" then
        if !IsParserKey(entity) then Loop(lines, i + 1, entity, data, acc, toReal)
        else match ParseData(entity, data)
          case Err(e) => Outcome(acc, Some(e))
          case Ok(en) => Loop(lines, i + 1, value, map[], acc.Add(en), toReal)
      else Loop(lines, i + 1, entity, Store(data, code, toReal(value)), acc, toReal)
  }

  /**
   * With no entity type pending the loop never runs a parser: it ends without an
   * exception and with nothing appended, whatever the lines.
   */
  lemma {:induction false} NeverEmits(lines: seq<string>, i: nat, data: map<string, real>, acc: Parsed,
                                      toReal: string -> Option<real>)
    ensures Loop(lines, i, "", data, acc, toReal) == Outcome(acc, None)
    decreases |lines| - i
  {
    if i < |lines| {
      if |lines[i]| == 2 && lines[i][..1] != "0" {
        NeverEmits(lines, i + 1, Store(data, lines[i][..1], toReal(lines[i][1..])), acc, toReal);
      } else {
        NeverEmits(lines, i + 1, data, acc, toReal);
      }
    }
  }

  class DXFParser {
    var dxfLines: seq<string>
    /** The class attribute `entities`, shared by every instance. */
    const entities: EntityStore

    constructor (lines: seq<string>, shared: EntityStore)
      ensures dxfLines == lines && entities == shared
    {
      dxfLines := lines;
      entities := shared;
    }

    /**
     * `DXFParser.parse`: the entities the loop produces are appended to the shared
     * lists, and a parser's exception ends the parse. By `NeverEmits` the outcome
     * is always "no exception, nothing appended".
     */
    method Parse(toReal: string -> Option<real>) returns (r: Result<EntityStore>)
      modifies entities
      ensures var o := Loop(StripAll(dxfLines), 0, "", map[], Parsed([], [], []), toReal);
        && entities.Contents() == old(entities.Contents()).Concat(o.parsed)
        && (r.Ok? <==> o.error.None?)
        && (r.Ok? ==> r.value == entities)
        && (r.Err? ==> r.error == o.error.value)
    {
      ghost var t := StripAll(dxfLines);
      ghost var acc := Parsed([], [], []);
      ghost var total := Loop(t, 0, "", map[], acc, toReal);
      var currentEntity := "";
      var currentData: map<string, real> := map[];
      ConcatEmpty(entities.Contents());
      for i := 0 to |dxfLines|
        invariant Loop(t, i, currentEntity, currentData, acc, toReal) == total
        invariant entities.Contents() == old(entities.Contents()).Concat(acc)
      {
        var parts := Strip(dxfLines[i]);
        assert parts == t[i];
        if |parts| != 2 {
          continue;
        }
        var code, value := parts[..1], parts[1..];
        if code == "0" {
          if !IsParserKey(currentEntity) {
            continue;
          }
          var entity := ParseData(currentEntity, currentData);
          if entity.Err? {
            return Err(entity.error);
          }
          ConcatAdd(old(entities.Contents()), acc, entity.value);
          acc := acc.Add(entity.value);
          entities.Append(entity.value);
          currentEntity := value;
          currentData := map[];
        } else {
          var f := toReal(value);
          if f.Some? {
            currentData := currentData[code := f.value];
          }
        }
      }
      r := Ok(entities);
    }
  }

  /** Whatever the lines, `parse` returns the shared lists unchanged. */
  lemma ParseLeavesEntities(lines: seq<string>, toReal: string -> Option<real>)
    ensures Loop(StripAll(lines), 0, "", map[], Parsed([], [], []), toReal) == Outcome(Parsed([], [], []), None)
  {
    NeverEmits(StripAll(lines), 0, map[], Parsed([], [], []), toReal);
  }
}
