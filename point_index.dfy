/**
 * What lesson03/lira_generator.py and lesson03/lira_exporter.py compute alike:
 * the list of all points (standalone points, then both ends of each line, then
 * the corners of each face), its first-encounter deduplication under
 * `Point.__eq__` numbered from 1, the index of a point in that numbering, and the
 * text records written for lines, points and layers.
 */
module PointIndex {
  import opened Wrappers
  import opened Text
  import opened Sequences
  import opened Entities

  /** The start and the end of each line, in line order. */
  function LineEnds(lines: seq<Line>): (r: seq<Point>)
    ensures |r| == 2 * |lines|
    ensures forall k :: 0 <= k < |lines| ==> r[2 * k] == lines[k].start && r[2 * k + 1] == lines[k].end
  {
    if lines == [] then []
    else LineEnds(lines[..|lines| - 1]) + [lines[|lines| - 1].start, lines[|lines| - 1].end]
  }

  /** The corner lists of the faces, in face order. */
  function CornerLists(faces: seq<E3DFace>): (r: seq<seq<Point>>)
    ensures |r| == |faces|
    ensures forall k :: 0 <= k < |faces| ==> r[k] == faces[k].points
  {
    seq(|faces|, k requires 0 <= k < |faces| => faces[k].points)
  }

  /** The number of corners over all faces. */
  function CornerCount(faces: seq<E3DFace>): nat {
    if faces == [] then 0 else CornerCount(faces[..|faces| - 1]) + |faces[|faces| - 1].points|
  }

  /** `all_points`: the standalone points, the line ends, then the face corners. */
  function AllPoints(points: seq<Point>, lines: seq<Line>, faces: seq<E3DFace>): seq<Point> {
    points + LineEnds(lines) + Flatten(CornerLists(faces))
  }

  /** All corners of all faces are listed. */
  lemma {:induction false} CornersLength(faces: seq<E3DFace>)
    ensures |Flatten(CornerLists(faces))| == CornerCount(faces)
    decreases |faces|
  {
    if faces != [] {
      var init := faces[..|faces| - 1];
      CornersLength(init);
      assert CornerLists(faces)[..|faces| - 1] == CornerLists(init);
    }
  }

  /**
   * The corners are laid out face after face: corner j of face k sits after the
   * corners of the faces before it.
   */
  lemma {:induction false} CornerAt(faces: seq<E3DFace>, k: nat, j: nat)
    requires k < |faces| && j < |faces[k].points|
    ensures CornerCount(faces[..k]) + j < CornerCount(faces)
    ensures CornerCount(faces) == |Flatten(CornerLists(faces))|
    ensures Flatten(CornerLists(faces))[CornerCount(faces[..k]) + j] == faces[k].points[j]
    decreases |faces|
  {
    var init := faces[..|faces| - 1];
    CornersLength(faces);
    CornersLength(init);
    assert CornerLists(faces)[..|faces| - 1] == CornerLists(init);
    var head := Flatten(CornerLists(init));
    assert Flatten(CornerLists(faces)) == head + faces[|faces| - 1].points;
    if k < |faces| - 1 {
      assert faces[..k] == init[..k];
      CornerAt(init, k, j);
    } else {
      assert faces[..k] == init;
    }
  }

  /** The corners of a prefix of the faces are no more than those of all of them. */
  lemma {:induction false} CornerCountPrefix(faces: seq<E3DFace>, k: nat)
    requires k <= |faces|
    ensures CornerCount(faces[..k]) + (if k < |faces| then |faces[k].points| else 0) <= CornerCount(faces)
    decreases |faces|
  {
    if k < |faces| {
      var init := faces[..|faces| - 1];
      if k < |faces| - 1 {
        assert faces[..k] == init[..k];
        CornerCountPrefix(init, k);
      } else {
        assert faces[..k] == init;
      }
    } else {
      assert faces[..k] == faces;
    }
  }

  /**
   * The layout of `all_points`: |points| + 2·|lines| + the corners of all faces;
   * the points first, then line k's start and end at |points| + 2k and + 2k + 1,
   * then the corners face after face (laid out by `CornerAt`).
   */
  lemma AllPointsLayout(points: seq<Point>, lines: seq<Line>, faces: seq<E3DFace>)
    ensures var all := AllPoints(points, lines, faces);
      && |all| == |points| + 2 * |lines| + CornerCount(faces)
      && all[..|points|] == points
      && (forall k :: 0 <= k < |lines| ==>
            all[|points| + 2 * k] == lines[k].start && all[|points| + 2 * k + 1] == lines[k].end)
      && all[|points| + 2 * |lines|..] == Flatten(CornerLists(faces))
  {
    CornersLength(faces);
    var all := AllPoints(points, lines, faces);
    assert all == points + LineEnds(lines) + Flatten(CornerLists(faces));
  }

  /** The values of `unique_points`, in key order: the first point of each `==` class. */
  function Unique(all: seq<Point>): seq<Point> {
    Dedup(all, PointEquals)
  }

  /** `unique_points`: the distinct points numbered from 1. */
  function Numbering(all: seq<Point>): (m: map<int, Point>)
    ensures forall i :: i in m <==> 1 <= i <= |Unique(all)|
    ensures forall i :: 1 <= i <= |Unique(all)| ==> m[i] == Unique(all)[i - 1]
  {
    Numbered(Unique(all))
  }

  /** The loops of `all_points`: both ends of each line, then each face's corners, after the standalone points. */
  method CollectAllPoints(points: seq<Point>, lines: seq<Line>, faces: seq<E3DFace>) returns (r: seq<Point>)
    ensures r == AllPoints(points, lines, faces)
  {
    var ends: seq<Point> := [];
    for i := 0 to |lines|
      invariant ends == LineEnds(lines[..i])
    {
      assert lines[..i + 1][..i] == lines[..i];
      ends := ends + [lines[i].start];
      ends := ends + [lines[i].end];
    }
    assert lines[..|lines|] == lines;
    ghost var corners := CornerLists(faces);
    var acc := ends;
    for j := 0 to |faces|
      invariant acc == ends + Flatten(corners[..j])
    {
      FlattenPrefixStep(corners, j);
      acc := acc + faces[j].points;
    }
    assert corners[..|faces|] == corners;
    r := points + acc;
  }

  /** The loops of `unique_points`: keep each point no kept point equals, then number them from 1. */
  method NumberPoints(all: seq<Point>) returns (m: map<int, Point>)
    ensures m == Numbering(all)
  {
    var unique: seq<Point> := [];
    for i := 0 to |all|
      invariant unique == Dedup(all[..i], PointEquals)
    {
      assert all[..i + 1][..i] == all[..i];
      if !Member(unique, all[i], PointEquals) {
        unique := unique + [all[i]];
      }
    }
    assert all[..|all|] == all;
    m := map[];
    for i := 0 to |unique|
      invariant m == Numbered(unique[..i])
    {
      assert unique[..i + 1][..i] == unique[..i];
      m := m[i + 1 := unique[i]];
    }
    assert unique[..|unique|] == unique;
  }

  /** `get_index(point)`: the smallest key whose point equals `point`, or None. */
  function IndexOf(all: seq<Point>, point: Point): Option<nat> {
    FirstIndex(Unique(all), point, PointEquals)
  }

  /**
   * The numbering is of distinct representatives: no two keyed points are equal,
   * and each is a point of the list, which keeps its own layer.
   */
  lemma NumberingDistinct(all: seq<Point>)
    ensures forall i, j :: 1 <= i < j <= |Unique(all)| ==> !Numbering(all)[i].Equals(Numbering(all)[j])
    ensures forall i :: 1 <= i <= |Unique(all)| ==> Numbering(all)[i] in all
    ensures |Unique(all)| <= |all|
  {
    DedupDistinct(all, PointEquals);
    DedupMembers(all, PointEquals);
    DedupLength(all, PointEquals);
  }

  /** Every point with a non-negative accuracy is equal to itself. */
  ghost predicate Tolerant(all: seq<Point>) {
    forall k :: 0 <= k < |all| ==> all[k].accuracy >= 0.0
  }

  /** With non-negative accuracies every point of the list gets a key in 1..n. */
  lemma IndexTotal(all: seq<Point>, k: nat)
    requires Tolerant(all) && k < |all|
    ensures IndexOf(all, all[k]).Some?
    ensures 1 <= IndexOf(all, all[k]).value <= |Unique(all)|
  {
    assert Reflexive(all, PointEquals) by {
      forall j | 0 <= j < |all| ensures PointEquals(all[j], all[j]) {
        EqualsReflexive(all[j]);
      }
    }
    DedupIndexTotal(all, PointEquals, k);
  }

  /** Points built by the constructor, with the default accuracy, are tolerant. */
  lemma DefaultPointsTolerant(all: seq<Point>)
    requires forall k :: 0 <= k < |all| ==> all[k].accuracy == DefaultAccuracy
    ensures Tolerant(all)
  {
  }

  /** Python's `str()` of `get_index`'s result: the number, or "None". */
  function IndexText(r: Option<nat>): (s: string)
    ensures s != [] && ' ' !in s && '\n' !in s
  {
    match r
    case None => "None"
    case Some(n) => NatToString(n)
  }

  /** Different results are written differently. */
  lemma IndexTextInjective(a: Option<nat>, b: Option<nat>)
    requires IndexText(a) == IndexText(b)
    ensures a == b
  {
    if a.Some? && b.Some? {
      NatToStringInjective(a.value, b.value);
    }
  }

  /** The record `5 {layer} {start} {end}/` of a line, with its newline. */
  function LineRecord(layer: string, start: Option<nat>, end: Option<nat>): string {
    "5 " + (layer + " " + (IndexText(start) + " " + (IndexText(end) + "/\n")))
  }

  lemma NoSpaceBefore(a: string, b: string, i: nat)
    requires ' ' !in a && i < |a|
    ensures (a + " " + b)[i] != ' '
  {
    assert (a + " " + b)[i] == a[i];
  }

  /** Two texts joined by a space split back apart when the first has no space. */
  lemma SpaceJoinInjective(a: string, b: string, c: string, d: string)
    requires ' ' !in a && ' ' !in c
    requires a + " " + b == c + " " + d
    ensures a == c && b == d
  {
    var x, y := a + " " + b, c + " " + d;
    if |a| < |c| {
      NoSpaceBefore(c, d, |a|);
    } else if |c| < |a| {
      NoSpaceBefore(a, b, |c|);
    }
    assert a == x[..|a|] && c == y[..|c|];
    assert b == x[|a| + 1..] && d == y[|c| + 1..];
  }

  /** Texts with a common prefix, or a common suffix, are equal when the whole texts are. */
  lemma Cancel(p: string, x: string, y: string, q: string)
    requires p + (x + q) == p + (y + q)
    ensures x == y
  {
    assert x == (p + (x + q))[|p|..|p| + |x|];
    assert y == (p + (y + q))[|p|..|p| + |y|];
  }

  /** A line record gives back its layer and both indexes, when the layer has no space. */
  lemma LineRecordInjective(layer: string, s: Option<nat>, e: Option<nat>, layer': string, s': Option<nat>, e': Option<nat>)
    requires ' ' !in layer && ' ' !in layer'
    requires LineRecord(layer, s, e) == LineRecord(layer', s', e')
    ensures layer == layer' && s == s' && e == e'
  {
    var u, u' := IndexText(e) + "/\n", IndexText(e') + "/\n";
    var v, v' := IndexText(s) + " " + u, IndexText(s') + " " + u';
    var w, w' := layer + " " + v, layer' + " " + v';
    assert w + [] == w && w' + [] == w';
    Cancel("5 ", w, w', []);
    SpaceJoinInjective(layer, v, layer', v');
    SpaceJoinInjective(IndexText(s), u, IndexText(s'), u');
    assert [] + u == u && [] + u' == u';
    Cancel([], IndexText(e), IndexText(e'), "/\n");
    IndexTextInjective(s, s');
    IndexTextInjective(e, e');
  }

  /** The record `{x} {y} {z}/` of a point, with `fmt` for Python's `str(float)`. */
  function PointRecord(p: Point, fmt: real -> string): string {
    fmt(p.x) + " " + (fmt(p.y) + " " + (fmt(p.z) + "/\n"))
  }

  /** The records of the numbered points, in key order. */
  function PointRecords(unique: seq<Point>, fmt: real -> string): (r: seq<string>)
    ensures |r| == |unique|
    ensures forall k :: 0 <= k < |unique| ==> r[k] == PointRecord(unique[k], fmt)
  {
    seq(|unique|, k requires 0 <= k < |unique| => PointRecord(unique[k], fmt))
  }

  /** The point block `unique_points += f"{point.x} {point.y} {point.z}/\n"`. */
  function PointBlock(unique: seq<Point>, fmt: real -> string): string {
    Flatten(PointRecords(unique, fmt))
  }

  /** The loop over `unique_points.values()`: one record per numbered point, in key order. */
  method CollectPointRecords(numbered: map<int, Point>, ghost unique: seq<Point>, fmt: real -> string) returns (text: string)
    requires numbered == Numbered(unique)
    ensures text == PointBlock(unique, fmt)
  {
    ghost var records := PointRecords(unique, fmt);
    text := "";
    var k := 1;
    while k in numbered
      invariant 1 <= k <= |unique| + 1
      invariant text == Flatten(records[..k - 1])
      decreases |unique| + 1 - k
    {
      FlattenPrefixStep(records, k - 1);
      text := text + PointRecord(numbered[k], fmt);
      k := k + 1;
    }
    assert records[..|unique|] == records;
  }

  /** `str(float)` renders every coordinate as one word. */
  ghost predicate Word(s: string) {
    ' ' !in s && '\n' !in s
  }

  /** A point record gives back the three coordinates when `str(float)` is one-to-one and gives words. */
  lemma PointRecordInjective(p: Point, q: Point, fmt: real -> string)
    requires forall v :: Word(fmt(v))
    requires forall u, v :: fmt(u) == fmt(v) ==> u == v
    requires PointRecord(p, fmt) == PointRecord(q, fmt)
    ensures p.Coords() == q.Coords()
  {
    assert Word(fmt(p.x)) && Word(fmt(q.x)) && Word(fmt(p.y)) && Word(fmt(q.y));
    SpaceJoinInjective(fmt(p.x), fmt(p.y) + " " + (fmt(p.z) + "/\n"), fmt(q.x), fmt(q.y) + " " + (fmt(q.z) + "/\n"));
    SpaceJoinInjective(fmt(p.y), fmt(p.z) + "/\n", fmt(q.y), fmt(q.z) + "/\n");
    var u, u' := fmt(p.z) + "/\n", fmt(q.z) + "/\n";
    assert [] + u == u && [] + u' == u';
    Cancel([], fmt(p.z), fmt(q.z), "/\n");
  }

  /** The position of the first newline of `s`, or |s| when there is none. */
  function NewlineAt(s: string): (i: nat)
    ensures i <= |s| && '\n' !in s[..i] && (i < |s| ==> s[i] == '\n')
  {
    if s == [] || s[0] == '\n' then 0
    else
      var j := NewlineAt(s[1..]);
      assert s[..j + 1] == [s[0]] + s[1..][..j];
      j + 1
  }

  /** A text cut after each newline; a last piece without one is kept as it is. */
  function SplitLines(s: string): seq<string>
    decreases |s|
  {
    if s == [] then []
    else
      var i := NewlineAt(s);
      if i == |s| then [s] else [s[..i + 1]] + SplitLines(s[i + 1..])
  }

  /** One line of text: a newline at the end and nowhere else. */
  predicate IsTextLine(r: string) {
    r != [] && r[|r| - 1] == '\n' && '\n' !in r[..|r| - 1]
  }

  /** A leading text line is cut off as the first piece. */
  lemma SplitLinesCons(r: string, rest: string)
    requires IsTextLine(r)
    ensures SplitLines(r + rest) == [r] + SplitLines(rest)
  {
    var s := r + rest;
    var n := |r| - 1;
    assert s[..n] == r[..n] && s[n] == '\n';
    var j := NewlineAt(s);
    assert s[..n + 1] == r && s[n + 1..] == rest;
  }

  /** Records that are text lines are split back apart: the writer's output reads back record by record. */
  lemma {:induction false} SplitLinesFlatten(rs: seq<string>)
    requires forall k :: 0 <= k < |rs| ==> IsTextLine(rs[k])
    ensures SplitLines(Flatten(rs)) == rs
    decreases |rs|
  {
    if rs != [] {
      assert rs == [rs[0]] + rs[1..];
      FlattenCons(rs[0], rs[1..]);
      SplitLinesFlatten(rs[1..]);
      SplitLinesCons(rs[0], Flatten(rs[1..]));
    }
  }

  /** A record `body/\n` whose body has no newline is one text line. */
  lemma RecordIsTextLine(body: string)
    requires '\n' !in body
    ensures IsTextLine(body + "/\n")
  {
    assert (body + "/\n")[..|body| + 1] == body + "/";
  }

  /** A line record is one text line when its layer text has no newline. */
  lemma LineRecordIsTextLine(layer: string, s: Option<nat>, e: Option<nat>)
    requires '\n' !in layer
    ensures IsTextLine(LineRecord(layer, s, e))
  {
    var body := "5 " + layer + " " + IndexText(s) + " " + IndexText(e);
    assert LineRecord(layer, s, e) == body + "/\n";
    RecordIsTextLine(body);
  }

  /**
   * When `str(float)` gives words, the point block has one line per numbered point,
   * in key order.
   */
  lemma PointBlockLines(unique: seq<Point>, fmt: real -> string)
    requires forall v :: Word(fmt(v))
    ensures SplitLines(PointBlock(unique, fmt)) == PointRecords(unique, fmt)
  {
    var rs := PointRecords(unique, fmt);
    forall k | 0 <= k < |rs| ensures IsTextLine(rs[k]) {
      var p := unique[k];
      assert Word(fmt(p.x)) && Word(fmt(p.y)) && Word(fmt(p.z));
      var body := fmt(p.x) + " " + fmt(p.y) + " " + fmt(p.z);
      assert rs[k] == body + "/\n";
      RecordIsTextLine(body);
    }
    SplitLinesFlatten(rs);
  }
}
