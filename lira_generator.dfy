/**
 * lesson03/lira_generator.py: `Lira` holds the points, lines and faces read from
 * a drawing. It lists all their points and numbers the distinct ones from 1,
 * computing each once and caching it. It then writes one `5 1 {start} {end}/`
 * record per line and one `{x} {y} {z}/` record per numbered point.
 */
module LiraGenerator {
  import opened Wrappers
  import opened Sequences
  import opened Entities
  import PointIndex

  /** The records of `get_converted_lines`: layer 1 and the indexes of both ends, line by line. */
  function ConvertedRecords(all: seq<Point>, lines: seq<Line>): (r: seq<string>)
    ensures |r| == |lines|
    ensures forall k :: 0 <= k < |lines| ==>
      r[k] == PointIndex.LineRecord("1", PointIndex.IndexOf(all, lines[k].start), PointIndex.IndexOf(all, lines[k].end))
  {
    seq(|lines|, k requires 0 <= k < |lines| =>
      PointIndex.LineRecord("1", PointIndex.IndexOf(all, lines[k].start), PointIndex.IndexOf(all, lines[k].end)))
  }

  class Lira {
    const points: seq<Point>
    const lines: seq<Line>
    const faces: seq<E3DFace>
    /** The cached `all_points`, once computed. */
    var cacheAllPoints: Option<seq<Point>>
    /** The cached `unique_points`, once computed. */
    var cacheUniquePoints: Option<map<int, Point>>

    /** The list `all_points` stands for. */
    function All(): seq<Point> {
      PointIndex.AllPoints(points, lines, faces)
    }

    /** Each cached value is the one its property computes from the current fields. */
    ghost predicate Valid()
      reads this
    {
      && (cacheAllPoints.Some? ==> cacheAllPoints.value == All())
      && (cacheUniquePoints.Some? ==> cacheUniquePoints.value == PointIndex.Numbering(All()))
    }

    constructor (points: seq<Point>, lines: seq<Line>, faces: seq<E3DFace>)
      ensures this.points == points && this.lines == lines && this.faces == faces
      ensures cacheAllPoints.None? && cacheUniquePoints.None?
      ensures Valid()
    {
      this.points := points;
      this.lines := lines;
      this.faces := faces;
      cacheAllPoints := None;
      cacheUniquePoints := None;
    }

    /** `all_points`: the standalone points, both ends of each line, then every face's corners. */
    method AllPoints() returns (r: seq<Point>)
      requires Valid()
      modifies this`cacheAllPoints
      ensures Valid() && cacheAllPoints == Some(r)
      ensures r == PointIndex.AllPoints(points, lines, faces)
    {
      if cacheAllPoints.Some? {
        return cacheAllPoints.value;
      }
      r := PointIndex.CollectAllPoints(points, lines, faces);
      cacheAllPoints := Some(r);
    }

    /** `unique_points`: the first point of each `==` class, in encounter order, keyed from 1. */
    method UniquePoints() returns (m: map<int, Point>)
      requires Valid()
      modifies this`cacheAllPoints, this`cacheUniquePoints
      ensures Valid() && cacheUniquePoints == Some(m)
      ensures m == PointIndex.Numbering(All())
    {
      if cacheUniquePoints.Some? {
        return cacheUniquePoints.value;
      }
      var all := AllPoints();
      m := PointIndex.NumberPoints(all);
      cacheUniquePoints := Some(m);
    }

    /** `get_index(point)`: the first key, in key order, whose point equals `point`; None when there is none. */
    method GetIndex(point: Point) returns (r: Option<nat>)
      requires Valid()
      modifies this`cacheAllPoints, this`cacheUniquePoints
      ensures Valid() && cacheUniquePoints.Some?
      ensures r == PointIndex.IndexOf(All(), point)
    {
      var indexes := UniquePoints();
      ghost var d := PointIndex.Unique(All());
      r := FindKey(indexes, d, point, PointEquals);
    }

    /** The record of one line: layer 1, then `get_index` of both ends. */
    method ConvertLine(line: Line) returns (record: string)
      requires Valid()
      modifies this`cacheAllPoints, this`cacheUniquePoints
      ensures Valid()
      ensures record == PointIndex.LineRecord("1", PointIndex.IndexOf(All(), line.start), PointIndex.IndexOf(All(), line.end))
    {
      var x := GetIndex(line.start);
      var y := GetIndex(line.end);
      record := PointIndex.LineRecord("1", x, y);
    }

    /** `get_converted_lines`: the records of all lines, concatenated in line order. */
    method GetConvertedLines() returns (results: string)
      requires Valid()
      modifies this`cacheAllPoints, this`cacheUniquePoints
      ensures Valid()
      ensures results == Flatten(ConvertedRecords(All(), lines))
    {
      ghost var records := ConvertedRecords(All(), lines);
      results := "";
      for i := 0 to |lines|
        invariant Valid()
        invariant results == Flatten(records[..i])
      {
        var record := ConvertLine(lines[i]);
        FlattenPrefixStep(records, i);
        results := results + record;
      }
      assert records[..|lines|] == records;
    }

    /**
     * The two blocks `write_to_file` puts into the template: the line records, then
     * one record per numbered point in key order. `fmt` is Python's `str(float)`.
     */
    method WriteToFile(fmt: real -> string) returns (drawingObjects: string, uniquePoints: string)
      requires Valid()
      modifies this`cacheAllPoints, this`cacheUniquePoints
      ensures Valid()
      ensures drawingObjects == Flatten(ConvertedRecords(All(), lines))
      ensures uniquePoints == PointIndex.PointBlock(PointIndex.Unique(All()), fmt)
    {
      drawingObjects := GetConvertedLines();
      var m := UniquePoints();
      ghost var d := PointIndex.Unique(All());
      uniquePoints := PointIndex.CollectPointRecords(m, d, fmt);
    }
  }

  /** The line records read back one per text line, in line order. */
  lemma ConvertedLinesRead(all: seq<Point>, lines: seq<Line>)
    ensures PointIndex.SplitLines(Flatten(ConvertedRecords(all, lines))) == ConvertedRecords(all, lines)
  {
    var rs := ConvertedRecords(all, lines);
    forall k | 0 <= k < |rs| ensures PointIndex.IsTextLine(rs[k]) {
      PointIndex.LineRecordIsTextLine("1", PointIndex.IndexOf(all, lines[k].start), PointIndex.IndexOf(all, lines[k].end));
    }
    PointIndex.SplitLinesFlatten(rs);
  }

  /**
   * When no point has a negative accuracy, both ends of every line are numbered:
   * no line record carries `None`.
   */
  lemma LineIndexesResolved(points: seq<Point>, lines: seq<Line>, faces: seq<E3DFace>, k: nat)
    requires PointIndex.Tolerant(PointIndex.AllPoints(points, lines, faces)) && k < |lines|
    ensures var all := PointIndex.AllPoints(points, lines, faces);
      && PointIndex.IndexOf(all, lines[k].start).Some?
      && PointIndex.IndexOf(all, lines[k].end).Some?
  {
    var all := PointIndex.AllPoints(points, lines, faces);
    PointIndex.AllPointsLayout(points, lines, faces);
    PointIndex.IndexTotal(all, |points| + 2 * k);
    PointIndex.IndexTotal(all, |points| + 2 * k + 1);
  }
}
