/**
 * lesson01/calculate_elemts.py: 2-D points compared within a tolerance,
 * elements that list their distinct points, and an object that numbers the
 * distinct points of all its elements from 1 (computed once and cached) and
 * rewrites every element as a list of those numbers.
 */
module CalculateElements {
  import opened Wrappers
  import opened Sequences

  /** The 2-D `Point`; `accuracy` defaults to 0.0. */
  datatype Point2 = Point2(x: real, y: real, accuracy: real) {
    /** `Point.__eq__`: both axes within the receiver's accuracy. */
    predicate Equals(other: Point2) {
      && (if x - other.x < 0.0 then other.x - x else x - other.x) <= accuracy
      && (if y - other.y < 0.0 then other.y - y else y - other.y) <= accuracy
    }
  }

  /** `Point(x, y)` with the default accuracy. */
  function NewPoint2(x: real, y: real): Point2 {
    Point2(x, y, 0.0)
  }

  /** `==` on points, receiver first. */
  function Point2Equals(a: Point2, b: Point2): bool {
    a.Equals(b)
  }

  /** With the default accuracy `==` is exact equality of the coordinates. */
  lemma DefaultAccuracyIsExact(a: Point2, b: Point2)
    requires a.accuracy == 0.0
    ensures a.Equals(b) <==> a.x == b.x && a.y == b.y
  {
  }

  datatype Element = Element(points: seq<Point2>)

  /** What `Element.get_indexes` returns: its points, later duplicates dropped. */
  function ElementUnique(e: Element): seq<Point2> {
    Dedup(e.points, Point2Equals)
  }

  /** `Element.get_indexes`. */
  method ElementIndexes(e: Element) returns (results: seq<Point2>)
    ensures results == ElementUnique(e)
    ensures |results| <= |e.points|
    ensures Distinct(results, Point2Equals)
    ensures IsSubsequence(results, e.points)
  {
    results := [];
    var i := 0;
    while i < |e.points|
      invariant 0 <= i <= |e.points|
      invariant results == Dedup(e.points[..i], Point2Equals)
    {
      var point := e.points[i];
      assert e.points[..i + 1][..i] == e.points[..i];
      if !Member(results, point, Point2Equals) {
        results := results + [point];
      }
      i := i + 1;
    }
    assert e.points[..i] == e.points;
    DedupLength(e.points, Point2Equals);
    DedupDistinct(e.points, Point2Equals);
    DedupSubsequence(e.points, Point2Equals);
  }

  /** The result of `get_indexes` for each element, in element order. */
  function ElementUniques(elements: seq<Element>): (r: seq<seq<Point2>>)
    ensures |r| == |elements|
    ensures forall k :: 0 <= k < |elements| ==> r[k] == ElementUnique(elements[k])
  {
    seq(|elements|, k requires 0 <= k < |elements| => ElementUnique(elements[k]))
  }

  /** The per-element results of `get_indexes`, concatenated in element order. */
  function ElementsUnique(elements: seq<Element>): seq<Point2> {
    Flatten(ElementUniques(elements))
  }

  /** The values of `Obj.get_indexes`, in key order. */
  function ObjUnique(elements: seq<Element>): seq<Point2> {
    Dedup(ElementsUnique(elements), Point2Equals)
  }

  /** What `Obj.get_indexes` returns: the distinct points numbered from 1. */
  function ObjIndexes(elements: seq<Element>): (m: map<int, Point2>)
    ensures forall i :: i in m <==> 1 <= i <= |ObjUnique(elements)|
    ensures forall i, j :: 1 <= i < j <= |ObjUnique(elements)| ==> !m[i].Equals(m[j])
  {
    DedupDistinct(ElementsUnique(elements), Point2Equals);
    Numbered(ObjUnique(elements))
  }

  /** What `Obj.get_index(point)` returns: the smallest key whose point equals it. */
  function ObjIndex(elements: seq<Element>, point: Point2): Option<nat> {
    FirstIndex(ObjUnique(elements), point, Point2Equals)
  }

  /** What `Obj.convert_to_index_format` returns. */
  function IndexFormat(elements: seq<Element>): (r: seq<map<int, seq<Option<nat>>>>)
    ensures |r| == |elements|
    ensures forall i :: 0 <= i < |elements| ==> r[i].Keys == {i + 1}
    ensures forall i :: 0 <= i < |elements| ==> |r[i][i + 1]| == |elements[i].points|
    ensures forall i, j :: 0 <= i < |elements| && 0 <= j < |elements[i].points| ==>
      r[i][i + 1][j] == ObjIndex(elements, elements[i].points[j])
  {
    seq(|elements|, i requires 0 <= i < |elements| =>
      map[i + 1 := seq(|elements[i].points|, j requires 0 <= j < |elements[i].points| =>
        ObjIndex(elements, elements[i].points[j]))])
  }

  class Obj {
    var elements: seq<Element>
    var cacheIndexes: Option<map<int, Point2>>

    /** A cached numbering is always the numbering of the current elements. */
    ghost predicate Valid()
      reads this
    {
      cacheIndexes.Some? ==> cacheIndexes.value == ObjIndexes(elements)
    }

    constructor (elements: seq<Element>)
      ensures Valid()
      ensures this.elements == elements && cacheIndexes.None?
    {
      this.elements := elements;
      cacheIndexes := None;
    }

    /** `Obj.get_indexes`: computes the numbering on the first call and caches it. */
    method GetIndexes() returns (m: map<int, Point2>)
      requires Valid()
      modifies this`cacheIndexes
      ensures Valid()
      ensures m == ObjIndexes(elements)
      ensures cacheIndexes == Some(m)
      ensures old(cacheIndexes).Some? ==> m == old(cacheIndexes).value
    {
      if cacheIndexes.Some? {
        return cacheIndexes.value;
      }
      var points: seq<Point2> := [];
      var i := 0;
      ghost var parts := ElementUniques(elements);
      while i < |elements|
        invariant 0 <= i <= |elements|
        invariant points == Flatten(parts[..i])
      {
        var unique := ElementIndexes(elements[i]);
        FlattenPrefixStep(parts, i);
        points := points + unique;
        i := i + 1;
      }
      assert parts[..i] == parts;
      var res: seq<Point2> := [];
      var j := 0;
      while j < |points|
        invariant 0 <= j <= |points|
        invariant res == Dedup(points[..j], Point2Equals)
      {
        var point := points[j];
        assert points[..j + 1][..j] == points[..j];
        if !Member(res, point, Point2Equals) {
          res := res + [point];
        }
        j := j + 1;
      }
      assert points[..j] == points;
      m := Numbered(res);
      cacheIndexes := Some(m);
    }

    /** `Obj.get_index`: the first key, in key order, whose point equals `point`; None when there is none. */
    method GetIndex(point: Point2) returns (r: Option<nat>)
      requires Valid()
      modifies this`cacheIndexes
      ensures Valid() && cacheIndexes == Some(ObjIndexes(elements))
      ensures r == ObjIndex(elements, point)
    {
      var indexes := GetIndexes();
      ghost var d := ObjUnique(elements);
      r := FindKey(indexes, d, point, Point2Equals);
    }

    /** The inner loop of `convert_to_index_format`: `get_index` of each point of one element, in order. */
    method IndexList(element: Element) returns (list: seq<Option<nat>>)
      requires Valid()
      modifies this`cacheIndexes
      ensures Valid()
      ensures |list| == |element.points|
      ensures forall j :: 0 <= j < |list| ==> list[j] == ObjIndex(elements, element.points[j])
    {
      list := [];
      var j := 0;
      while j < |element.points|
        invariant 0 <= j <= |element.points|
        invariant Valid()
        invariant |list| == j
        invariant forall k :: 0 <= k < j ==> list[k] == ObjIndex(elements, element.points[k])
      {
        var index := GetIndex(element.points[j]);
        list := list + [index];
        j := j + 1;
      }
    }

    /** `Obj.convert_to_index_format`: one single-key dict `{i + 1: [...]}` per element. */
    method ConvertToIndexFormat() returns (results: seq<map<int, seq<Option<nat>>>>)
      requires Valid()
      modifies this`cacheIndexes
      ensures Valid()
      ensures results == IndexFormat(elements)
    {
      results := [];
      var i := 0;
      while i < |elements|
        invariant 0 <= i <= |elements|
        invariant Valid()
        invariant results == IndexFormat(elements)[..i]
      {
        var list := IndexList(elements[i]);
        assert list == IndexFormat(elements)[i][i + 1];
        assert map[i + 1 := list] == IndexFormat(elements)[i];
        results := results + [map[i + 1 := list]];
        i := i + 1;
      }
    }
  }

  /** Every point of every element has exactly the default accuracy. */
  ghost predicate ExactPoints(elements: seq<Element>) {
    forall i, j :: 0 <= i < |elements| && 0 <= j < |elements[i].points| ==>
      elements[i].points[j].accuracy == 0.0
  }

  /** The per-element results, and so all the numbered points, are exact too. */
  lemma ExactUnique(elements: seq<Element>)
    requires ExactPoints(elements)
    ensures forall q :: q in ElementsUnique(elements) ==> q.accuracy == 0.0
  {
    var parts := ElementUniques(elements);
    forall q: Point2 | q in Flatten(parts) ensures q.accuracy == 0.0 {
      FlattenMemberInv(parts, q);
      var e :| 0 <= e < |parts| && q in parts[e];
      DedupMembers(elements[e].points, Point2Equals);
    }
  }

  /** A point of an exact element equals, coordinate for coordinate, one kept by its element. */
  lemma ExactCoveredInElement(elements: seq<Element>, i: nat, j: nat) returns (q: Point2)
    requires ExactPoints(elements)
    requires i < |elements| && j < |elements[i].points|
    ensures q in ElementsUnique(elements)
    ensures q.x == elements[i].points[j].x && q.y == elements[i].points[j].y
  {
    var p := elements[i].points[j];
    var parts := ElementUniques(elements);
    assert Reflexive(elements[i].points, Point2Equals) by {
      forall t | 0 <= t < |elements[i].points| ensures elements[i].points[t].Equals(elements[i].points[t]) {
        assert elements[i].points[t].accuracy == 0.0;
      }
    }
    DedupCovers(elements[i].points, Point2Equals);
    var du := parts[i];
    assert Member(du, p, Point2Equals);
    var t :| 0 <= t < |du| && du[t].Equals(p);
    q := du[t];
    DedupMembers(elements[i].points, Point2Equals);
    assert q in elements[i].points;
    var jq :| 0 <= jq < |elements[i].points| && elements[i].points[jq] == q;
    assert q.accuracy == 0.0;
    FlattenMember(parts, i, q);
    assert q in ElementsUnique(elements);
    assert q.Equals(p);
  }

  /**
   * With exact points, `convert_to_index_format` never produces None: every point
   * finds the number of a point with its coordinates.
   */
  lemma ExactIndexesResolved(elements: seq<Element>, i: nat, j: nat)
    requires ExactPoints(elements)
    requires i < |elements| && j < |elements[i].points|
    ensures IndexFormat(elements)[i][i + 1][j].Some?
  {
    var p := elements[i].points[j];
    var flat := ElementsUnique(elements);
    var q := ExactCoveredInElement(elements, i, j);
    ExactUnique(elements);
    assert Reflexive(flat, Point2Equals) by {
      forall t | 0 <= t < |flat| ensures flat[t].Equals(flat[t]) {
        assert flat[t] in flat;
      }
    }
    DedupCovers(flat, Point2Equals);
    var kq :| 0 <= kq < |flat| && flat[kq] == q;
    var d := ObjUnique(elements);
    var r :| 0 <= r < |d| && d[r].Equals(flat[kq]);
    DedupMembers(flat, Point2Equals);
    assert d[r] in flat;
    assert d[r].Equals(p);
  }

  /** The three points of the tolerance example, in two elements. */
  function ToleranceExample(): seq<Element> {
    [Element([Point2(0.0, 0.0, 0.005)]), Element([Point2(0.004, 0.0, 0.005), Point2(0.008, 0.0, 0.005)])]
  }

  lemma ToleranceExampleUnique()
    ensures ObjUnique(ToleranceExample()) == [Point2(0.0, 0.0, 0.005)]
  {
    var a, b, c := Point2(0.0, 0.0, 0.005), Point2(0.004, 0.0, 0.005), Point2(0.008, 0.0, 0.005);
    var elements := ToleranceExample();
    assert [a][..0] == [];
    assert Dedup([a], Point2Equals) == [a];
    assert [b, c][..1] == [b];
    assert [b][..0] == [];
    assert Dedup([b], Point2Equals) == [b];
    assert Member([b], c, Point2Equals);
    assert Dedup([b, c], Point2Equals) == [b];
    var parts := ElementUniques(elements);
    assert parts == [[a], [b]];
    assert parts[..1] == [[a]];
    assert [[a]][..0] == [];
    assert Flatten([[a]]) == [a];
    assert Flatten(parts) == [a, b];
    assert [a, b][..1] == [a];
    assert Member([a], b, Point2Equals);
  }

  lemma ToleranceExampleIndexes()
    ensures var elements := ToleranceExample();
      && ObjIndex(elements, Point2(0.0, 0.0, 0.005)) == Some(1)
      && ObjIndex(elements, Point2(0.004, 0.0, 0.005)) == Some(1)
      && ObjIndex(elements, Point2(0.008, 0.0, 0.005)) == None
  {
    var a, b, c := Point2(0.0, 0.0, 0.005), Point2(0.004, 0.0, 0.005), Point2(0.008, 0.0, 0.005);
    assert FirstIndex([a], a, Point2Equals) == Some(1);
    assert FirstIndex([a], b, Point2Equals) == Some(1);
    assert !Point2Equals(a, c);
    assert FirstIndex([a], c, Point2Equals) == None;
    ToleranceExampleUnique();
  }

  /**
   * With a tolerance the numbering can miss a point: (0, 0) and (0.004, 0) are
   * equal, and so are (0.004, 0) and (0.008, 0); (0.008, 0) is dropped in its
   * element, (0.004, 0) globally, and (0.008, 0) is not equal to (0, 0).
   */
  lemma ToleranceMayLeaveIndexMissing()
    ensures IndexFormat(ToleranceExample()) == [map[1 := [Some(1)]], map[2 := [Some(1), None]]]
  {
    var r := IndexFormat(ToleranceExample());
    ToleranceFirstElement();
    ToleranceSecondElement();
    assert r == [r[0], r[1]];
  }

  /** The first element of the example: its one point has number 1. */
  lemma ToleranceFirstElement()
    ensures IndexFormat(ToleranceExample())[0] == map[1 := [Some(1)]]
  {
    var elements := ToleranceExample();
    ToleranceExampleIndexes();
    var r := IndexFormat(elements);
    assert elements[0].points == [Point2(0.0, 0.0, 0.005)];
    assert r[0][1] == [Some(1)];
  }

  /** The second element of the example: its first point has number 1, its second none. */
  lemma ToleranceSecondElement()
    ensures IndexFormat(ToleranceExample())[1] == map[2 := [Some(1), None]]
  {
    var elements := ToleranceExample();
    var b, c := Point2(0.004, 0.0, 0.005), Point2(0.008, 0.0, 0.005);
    var list := IndexFormat(elements)[1][2];
    assert list == [ObjIndex(elements, b), ObjIndex(elements, c)] by {
      assert elements[1].points == [b, c];
    }
    ToleranceExampleIndexes();
  }
}
