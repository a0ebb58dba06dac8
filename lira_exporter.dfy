/**
 * lesson03/lira_exporter.py: `LiraExporter` numbers the distinct points of a
 * drawing like `Lira` does. It can drop the entries whose layer fails the
 * layer-name template, which also drops its caches. It numbers the layers of the
 * numbered points, and writes the line records with their layer numbers, one
 * record per layer and one per point.
 */
module LiraExporter {
  import opened Wrappers
  import opened Text
  import opened Sequences
  import opened Entities
  import PointIndex

  /** The entries `filter_by_layer_template` keeps. */
  predicate PointKept(p: Point) {
    p.layer.IsValid()
  }

  predicate LineKept(l: Line) {
    l.layer.IsValid()
  }

  predicate FaceKept(f: E3DFace) {
    f.layer.IsValid()
  }

  /** The layers of the numbered points. */
  ghost function LayersOf(unique: seq<Point>): set<Layer> {
    set k | 0 <= k < |unique| :: unique[k].layer
  }

  /** `order` lists each layer of `s` exactly once. */
  predicate Listing(order: seq<Layer>, s: set<Layer>) {
    && (forall i, j :: 0 <= i < j < |order| ==> order[i] != order[j])
    && (forall l :: l in order ==> l in s)
    && (forall l :: l in s ==> l in order)
  }

  /** Every finite set of layers can be listed. */
  lemma {:induction false} ListingExists(s: set<Layer>) returns (order: seq<Layer>)
    ensures Listing(order, s)
    decreases |s|
  {
    if s == {} {
      order := [];
    } else {
      var l :| l in s;
      var rest := ListingExists(s - {l});
      order := rest + [l];
    }
  }

  /**
   * A dict together with its insertion order, which is the order Python iterates
   * it in: `layers` maps each layer to its number.
   */
  datatype LayerDict = LayerDict(order: seq<Layer>, index: map<Layer, int>)

  /** `{l: i + 1 for i, l in enumerate(order)}`. */
  function LayerMap(order: seq<Layer>): map<Layer, int> {
    if order == [] then map[] else LayerMap(order[..|order| - 1])[order[|order| - 1] := |order|]
  }

  /** A listing is numbered one-to-one onto 1..|order|, in list order. */
  lemma {:induction false} LayerMapNumbering(order: seq<Layer>)
    requires forall i, j :: 0 <= i < j < |order| ==> order[i] != order[j]
    ensures forall l :: l in LayerMap(order) <==> l in order
    ensures forall k :: 0 <= k < |order| ==> LayerMap(order)[order[k]] == k + 1
    decreases |order|
  {
    if order != [] {
      var init := order[..|order| - 1];
      LayerMapNumbering(init);
      forall k | 0 <= k < |init| ensures order[k] == init[k] && order[k] != order[|order| - 1] { }
    }
  }

  /** A layer has a number exactly when some numbered point carries it. */
  lemma LayerKnown(order: seq<Layer>, unique: seq<Point>, layer: Layer)
    requires Listing(order, LayersOf(unique))
    ensures layer in LayerMap(order) <==> exists k :: 0 <= k < |unique| && unique[k].layer == layer
  {
    LayerMapNumbering(order);
    if exists k :: 0 <= k < |unique| && unique[k].layer == layer {
      var k :| 0 <= k < |unique| && unique[k].layer == layer;
      assert layer in LayersOf(unique);
    }
  }

  /** The record `{layer} {start} {end}` of a line whose layer has a number. */
  function NumberedLineRecord(all: seq<Point>, line: Line, index: map<Layer, int>): string
    requires line.layer in index
  {
    PointIndex.LineRecord(IntToString(index[line.layer]), PointIndex.IndexOf(all, line.start), PointIndex.IndexOf(all, line.end))
  }

  /** Every line's layer has a number. */
  predicate LayersKnown(lines: seq<Line>, index: map<Layer, int>) {
    forall k :: 0 <= k < |lines| ==> lines[k].layer in index
  }

  /** The records of lines whose layers all have numbers. */
  function KnownLineRecords(all: seq<Point>, lines: seq<Line>, index: map<Layer, int>): (r: seq<string>)
    requires LayersKnown(lines, index)
    ensures |r| == |lines|
    ensures forall k :: 0 <= k < |lines| ==> r[k] == NumberedLineRecord(all, lines[k], index)
  {
    seq(|lines|, k requires 0 <= k < |lines| => NumberedLineRecord(all, lines[k], index))
  }

  /** What `get_converted_lines` gives: the records of all lines, or KeyError for a layer without a number. */
  function ConvertedLines(all: seq<Point>, lines: seq<Line>, index: map<Layer, int>): Result<string> {
    if LayersKnown(lines, index) then Ok(Flatten(KnownLineRecords(all, lines, index))) else Err(KeyError)
  }

  /** One more line with a numbered layer adds its record at the end. */
  lemma ConvertedLinesStep(all: seq<Point>, lines: seq<Line>, index: map<Layer, int>, i: nat)
    requires i < |lines| && LayersKnown(lines[..i], index) && lines[i].layer in index
    ensures LayersKnown(lines[..i + 1], index)
    ensures Flatten(KnownLineRecords(all, lines[..i + 1], index))
      == Flatten(KnownLineRecords(all, lines[..i], index)) + NumberedLineRecord(all, lines[i], index)
  {
    var front, longer := lines[..i], lines[..i + 1];
    assert longer[..i] == front && longer[i] == lines[i];
    var a, b := KnownLineRecords(all, longer, index), KnownLineRecords(all, front, index);
    assert a[..i] == b;
    assert a[i] == NumberedLineRecord(all, lines[i], index);
  }

  /** A line whose layer has no number makes the whole conversion a KeyError. */
  lemma ConvertedLinesMissing(all: seq<Point>, lines: seq<Line>, index: map<Layer, int>, i: nat)
    requires i < |lines| && lines[i].layer !in index
    ensures ConvertedLines(all, lines, index) == Err(KeyError)
  {
  }

  /** The record `{i} S0 3.06E6 {unique_name}/` of layer number `i`. */
  function LayerRecord(i: int, uniqueName: string): string {
    IntToString(i) + " " + ("S0 3.06E6 " + (uniqueName + "/\n"))
  }

  /** The layer records in the dict's order: the k-th listed layer carries number k. */
  function LayerRecords(order: seq<Layer>): (r: seq<string>)
    ensures |r| == |order|
    ensures forall k :: 0 <= k < |order| ==> r[k] == LayerRecord(k + 1, order[k].uniqueName)
  {
    seq(|order|, k requires 0 <= k < |order| => LayerRecord(k + 1, order[k].uniqueName))
  }

  /** The loop of `export` over `layers.items()`: one record per layer, with its number, in the dict's order. */
  method LayerItems(d: LayerDict) returns (text: string)
    requires forall i, j :: 0 <= i < j < |d.order| ==> d.order[i] != d.order[j]
    requires d.index == LayerMap(d.order)
    ensures text == Flatten(LayerRecords(d.order))
  {
    LayerMapNumbering(d.order);
    ghost var records := LayerRecords(d.order);
    text := "";
    for k := 0 to |d.order|
      invariant text == Flatten(records[..k])
    {
      FlattenPrefixStep(records, k);
      text := text + LayerRecord(d.index[d.order[k]], d.order[k].uniqueName);
    }
    assert records[..|d.order|] == records;
  }

  /** The three blocks `export` puts into the template. */
  datatype ExportText = ExportText(uniquePoints: string, drawingObjects: string, layers: string)

  class LiraExporter {
    var points: seq<Point>
    var lines: seq<Line>
    var faces: seq<E3DFace>
    /** The cached `all_points`, once computed. */
    var cacheAllPoints: Option<seq<Point>>
    /** The cached `unique_points`, once computed. */
    var cacheUniquePoints: Option<map<int, Point>>
    /** The cached `layers`, once computed. */
    var cacheLayers: Option<LayerDict>

    /** The list `all_points` stands for. */
    function All(): seq<Point>
      reads this`points, this`lines, this`faces
    {
      PointIndex.AllPoints(points, lines, faces)
    }

    /**
     * Each cached value is the one its property computes from the current lists;
     * the layers are numbered in some order, one number per layer of a numbered point.
     */
    ghost predicate Valid()
      reads this
    {
      && (cacheAllPoints.Some? ==> cacheAllPoints.value == All())
      && (cacheUniquePoints.Some? ==> cacheUniquePoints.value == PointIndex.Numbering(All()))
      && (cacheLayers.Some? ==>
            && Listing(cacheLayers.value.order, LayersOf(PointIndex.Unique(All())))
            && cacheLayers.value.index == LayerMap(cacheLayers.value.order))
    }

    constructor (points: seq<Point>, lines: seq<Line>, faces: seq<E3DFace>)
      ensures this.points == points && this.lines == lines && this.faces == faces
      ensures cacheAllPoints.None? && cacheUniquePoints.None? && cacheLayers.None?
      ensures Valid()
    {
      this.points := points;
      this.lines := lines;
      this.faces := faces;
      cacheAllPoints := None;
      cacheUniquePoints := None;
      cacheLayers := None;
    }

    /** `all_points`: the standalone points, both ends of each line, then every face's corners. */
    method AllPoints() returns (r: seq<Point>)
      requires Valid()
      modifies this`cacheAllPoints
      ensures Valid() && cacheAllPoints == Some(r)
      ensures r == PointIndex.AllPoints(points, lines, faces)
    {
      if cacheAllPoints.Some? {
        return cacheAllPoints.value;
      }
      r := PointIndex.CollectAllPoints(points, lines, faces);
      cacheAllPoints := Some(r);
    }

    /** `unique_points`: the first point of each `==` class, in encounter order, keyed from 1. */
    method UniquePoints() returns (m: map<int, Point>)
      requires Valid()
      modifies this`cacheAllPoints, this`cacheUniquePoints
      ensures Valid() && cacheUniquePoints == Some(m)
      ensures m == PointIndex.Numbering(All())
    {
      if cacheUniquePoints.Some? {
        return cacheUniquePoints.value;
      }
      var all := AllPoints();
      m := PointIndex.NumberPoints(all);
      cacheUniquePoints := Some(m);
    }

    /** `get_index(point)`: the first key, in key order, whose point equals `point`; None when there is none. */
    method GetIndex(point: Point) returns (r: Option<nat>)
      requires Valid()
      modifies this`cacheAllPoints, this`cacheUniquePoints
      ensures Valid() && cacheUniquePoints.Some?
      ensures r == PointIndex.IndexOf(All(), point)
    {
      var indexes := UniquePoints();
      ghost var d := PointIndex.Unique(All());
      r := FindKey(indexes, d, point, PointEquals);
    }

    /**
     * `filter_by_layer_template`: keeps the points, lines and faces whose layer is
     * valid, in their order, and drops every cache.
     */
    method FilterByLayerTemplate()
      modifies this
      ensures points == Filter(old(points), PointKept)
      ensures lines == Filter(old(lines), LineKept)
      ensures faces == Filter(old(faces), FaceKept)
      ensures cacheAllPoints.None? && cacheUniquePoints.None? && cacheLayers.None?
      ensures Valid()
    {
      points := Filter(points, PointKept);
      lines := Filter(lines, LineKept);
      faces := Filter(faces, FaceKept);
      cacheAllPoints := None;
      cacheUniquePoints := None;
      cacheLayers := None;
    }

    /**
     * `layers`: the distinct layers of the numbered points, numbered from 1 in the
     * order the set yields them, which the model leaves open.
     */
    method Layers() returns (d: LayerDict)
      requires Valid()
      modifies this`cacheAllPoints, this`cacheUniquePoints, this`cacheLayers
      ensures Valid() && cacheLayers == Some(d)
      ensures Listing(d.order, LayersOf(PointIndex.Unique(All())))
      ensures d.index == LayerMap(d.order)
      ensures old(cacheLayers).Some? ==> d == old(cacheLayers).value
    {
      if cacheLayers.Some? {
        return cacheLayers.value;
      }
      var m := UniquePoints();
      ghost var unique := PointIndex.Unique(All());
      var s := set i | i in m :: m[i].layer;
      assert s == LayersOf(unique) by {
        forall l | l in LayersOf(unique) ensures l in s {
          var k :| 0 <= k < |unique| && unique[k].layer == l;
          assert m[k + 1] == unique[k];
        }
      }
      ghost var listing := ListingExists(s);
      var order :| Listing(order, s);
      d := LayerDict(order, LayerMap(order));
      cacheLayers := Some(d);
    }

    /** `get_layer_index(layer)`: the layer's number, or KeyError when it has none. */
    method GetLayerIndex(layer: Layer) returns (r: Result<int>)
      requires Valid()
      modifies this`cacheAllPoints, this`cacheUniquePoints, this`cacheLayers
      ensures Valid() && cacheLayers.Some?
      ensures old(cacheLayers).Some? ==> cacheLayers == old(cacheLayers)
      ensures layer in cacheLayers.value.index ==> r == Ok(cacheLayers.value.index[layer])
      ensures layer !in cacheLayers.value.index ==> r == Err(KeyError)
    {
      var d := Layers();
      if layer in d.index {
        r := Ok(d.index[layer]);
      } else {
        r := Err(KeyError);
      }
    }

    /** The record of one line: `get_index` of both ends, then `get_layer_index` of its layer. */
    method ConvertLine(line: Line) returns (r: Result<string>)
      requires Valid()
      modifies this`cacheAllPoints, this`cacheUniquePoints, this`cacheLayers
      ensures Valid() && cacheLayers.Some?
      ensures old(cacheLayers).Some? ==> cacheLayers == old(cacheLayers)
      ensures line.layer in cacheLayers.value.index ==> r == Ok(NumberedLineRecord(All(), line, cacheLayers.value.index))
      ensures line.layer !in cacheLayers.value.index ==> r == Err(KeyError)
    {
      var start := GetIndex(line.start);
      var end := GetIndex(line.end);
      var layer := GetLayerIndex(line.layer);
      if layer.Err? {
        return Err(layer.error);
      }
      r := Ok(PointIndex.LineRecord(IntToString(layer.value), start, end));
    }

    /**
     * `get_converted_lines`: the records of all lines, concatenated in line order,
     * or the KeyError of the first line whose layer has no number. The layers are
     * numbered at the first line, so with no lines they stay uncomputed.
     */
    method GetConvertedLines() returns (r: Result<string>)
      requires Valid()
      modifies this`cacheAllPoints, this`cacheUniquePoints, this`cacheLayers
      ensures Valid()
      ensures old(cacheLayers).Some? ==> cacheLayers == old(cacheLayers)
      ensures lines == [] ==> r == Ok("")
      ensures lines != [] ==> cacheLayers.Some?
      ensures cacheLayers.Some? ==> r == ConvertedLines(All(), lines, cacheLayers.value.index)
    {
      var results := "";
      ghost var index: map<Layer, int> := if cacheLayers.Some? then cacheLayers.value.index else map[];
      for i := 0 to |lines|
        invariant Valid()
        invariant old(cacheLayers).Some? ==> cacheLayers == old(cacheLayers)
        invariant cacheLayers.Some? ==> cacheLayers.value.index == index
        invariant i > 0 ==> cacheLayers.Some?
        invariant LayersKnown(lines[..i], index)
        invariant results == Flatten(KnownLineRecords(All(), lines[..i], index))
      {
        var record := ConvertLine(lines[i]);
        index := cacheLayers.value.index;
        if record.Err? {
          ConvertedLinesMissing(All(), lines, index, i);
          return record;
        }
        ConvertedLinesStep(All(), lines, index, i);
        results := results + record.value;
      }
      assert lines[..|lines|] == lines;
      r := Ok(results);
    }

    /** The layer block of `export`: one record per layer, in the dict's order. */
    method LayerBlock() returns (text: string)
      requires Valid()
      modifies this`cacheAllPoints, this`cacheUniquePoints, this`cacheLayers
      ensures Valid() && cacheLayers.Some?
      ensures old(cacheLayers).Some? ==> cacheLayers == old(cacheLayers)
      ensures text == Flatten(LayerRecords(cacheLayers.value.order))
    {
      var d := Layers();
      text := LayerItems(d);
    }

    /** The point block of `export`: one record per numbered point, in key order. */
    method PointBlock(fmt: real -> string) returns (text: string)
      requires Valid()
      modifies this`cacheAllPoints, this`cacheUniquePoints
      ensures Valid()
      ensures text == PointIndex.PointBlock(PointIndex.Unique(All()), fmt)
    {
      var m := UniquePoints();
      ghost var unique := PointIndex.Unique(All());
      text := PointIndex.CollectPointRecords(m, unique, fmt);
    }

    /**
     * The three blocks `export` writes: the line records, the layer records and
     * the point records; or the KeyError of the line records. `fmt` is Python's
     * `str(float)`.
     */
    method Export(fmt: real -> string) returns (r: Result<ExportText>)
      requires Valid()
      modifies this`cacheAllPoints, this`cacheUniquePoints, this`cacheLayers
      ensures Valid() && cacheLayers.Some?
      ensures old(cacheLayers).Some? ==> cacheLayers == old(cacheLayers)
      ensures ConvertedLines(All(), lines, cacheLayers.value.index).Err? ==> r == Err(KeyError)
      ensures ConvertedLines(All(), lines, cacheLayers.value.index).Ok? ==> r == Ok(ExportText(
        PointIndex.PointBlock(PointIndex.Unique(All()), fmt),
        ConvertedLines(All(), lines, cacheLayers.value.index).value,
        Flatten(LayerRecords(cacheLayers.value.order))))
    {
      var drawingObjects := GetConvertedLines();
      if drawingObjects.Err? {
        return Err(drawingObjects.error);
      }
      var layers := LayerBlock();
      var uniquePoints := PointBlock(fmt);
      r := Ok(ExportText(uniquePoints, drawingObjects.value, layers));
    }
  }

  /** After `filter_by_layer_template` every entry has a valid layer, and every entry with one is kept. */
  lemma FilteredValid(points: seq<Point>, lines: seq<Line>, faces: seq<E3DFace>)
    ensures forall p :: p in Filter(points, PointKept) <==> p in points && p.layer.IsValid()
    ensures forall l :: l in Filter(lines, LineKept) <==> l in lines && l.layer.IsValid()
    ensures forall f :: f in Filter(faces, FaceKept) <==> f in faces && f.layer.IsValid()
  {
    FilterSpec(points, PointKept);
    FilterSpec(lines, LineKept);
    FilterSpec(faces, FaceKept);
  }

  /** Filtering a second time keeps every entry: the filter is idempotent. */
  lemma FilterTwice(points: seq<Point>, lines: seq<Line>, faces: seq<E3DFace>)
    ensures Filter(Filter(points, PointKept), PointKept) == Filter(points, PointKept)
    ensures Filter(Filter(lines, LineKept), LineKept) == Filter(lines, LineKept)
    ensures Filter(Filter(faces, FaceKept), FaceKept) == Filter(faces, FaceKept)
  {
    FilterIdempotent(points, PointKept);
    FilterIdempotent(lines, LineKept);
    FilterIdempotent(faces, FaceKept);
  }

  /**
   * `layers` numbers the layers of the numbered points one-to-one onto 1..k,
   * whichever order the set yields them in.
   */
  lemma LayerNumbersBijective(order: seq<Layer>, unique: seq<Point>)
    requires Listing(order, LayersOf(unique))
    ensures forall l :: l in LayerMap(order) <==> l in LayersOf(unique)
    ensures forall l :: l in LayerMap(order) ==> 1 <= LayerMap(order)[l] <= |order|
    ensures forall l, l' :: l in LayerMap(order) && l' in LayerMap(order) && LayerMap(order)[l] == LayerMap(order)[l'] ==> l == l'
  {
    var m := LayerMap(order);
    LayerMapNumbering(order);
    forall l | l in m ensures exists k :: 0 <= k < |order| && order[k] == l && m[l] == k + 1 {
      var k :| 0 <= k < |order| && order[k] == l;
    }
  }

  /**
   * `get_converted_lines` raises KeyError exactly when some line's layer is the
   * layer of no numbered point.
   */
  lemma ConvertedLinesKeyError(all: seq<Point>, lines: seq<Line>, order: seq<Layer>)
    requires Listing(order, LayersOf(PointIndex.Unique(all)))
    ensures ConvertedLines(all, lines, LayerMap(order)).Err? <==>
      exists k :: 0 <= k < |lines| && forall j :: 0 <= j < |PointIndex.Unique(all)| ==> PointIndex.Unique(all)[j].layer != lines[k].layer
  {
    var unique := PointIndex.Unique(all);
    forall k | 0 <= k < |lines|
      ensures lines[k].layer in LayerMap(order) <==> exists j :: 0 <= j < |unique| && unique[j].layer == lines[k].layer
    {
      LayerKnown(order, unique, lines[k].layer);
    }
  }

  /** Two points at the origin, one on a point layer and one on a line layer. */
  const PointLayer := Layer("H1", "1.0", PointType)
  const LineLayer := Layer("B12 H34", "3.0 4.0", LineType)

  /**
   * A line whose ends coincide with a standalone point of another layer: its ends
   * are numbered by that point, whose layer is the only one `layers` numbers, so
   * `get_converted_lines` raises KeyError.
   */
  lemma LineOnForeignPointsRaises(order: seq<Layer>)
    requires var p := NewPoint(0.0, 0.0, 0.0, PointLayer);
      var q := NewPoint(0.0, 0.0, 0.0, LineLayer);
      Listing(order, LayersOf(PointIndex.Unique(PointIndex.AllPoints([p], [Line(q, q, LineLayer)], []))))
    ensures var p := NewPoint(0.0, 0.0, 0.0, PointLayer);
      var q := NewPoint(0.0, 0.0, 0.0, LineLayer);
      ConvertedLines(PointIndex.AllPoints([p], [Line(q, q, LineLayer)], []), [Line(q, q, LineLayer)], LayerMap(order)) == Err(KeyError)
  {
    var p := NewPoint(0.0, 0.0, 0.0, PointLayer);
    var q := NewPoint(0.0, 0.0, 0.0, LineLayer);
    var lines := [Line(q, q, LineLayer)];
    var all := PointIndex.AllPoints([p], lines, []);
    assert PointIndex.LineEnds(lines) == [q, q] by {
      assert lines[..0] == [];
    }
    assert all == [p, q, q];
    assert [p, q, q][..2] == [p, q] && [p, q][..1] == [p] && [p][..0] == [];
    assert [p][0].Equals(q);
    assert Member([p], q, PointEquals);
    assert Dedup([p], PointEquals) == [p];
    assert Dedup([p, q], PointEquals) == [p];
    assert PointIndex.Unique(all) == [p];
    LayerKnown(order, [p], LineLayer);
  }

  /** The line records read back one per text line, in line order. */
  lemma ConvertedLinesRead(all: seq<Point>, lines: seq<Line>, index: map<Layer, int>)
    requires ConvertedLines(all, lines, index).Ok?
    ensures PointIndex.SplitLines(ConvertedLines(all, lines, index).value) == KnownLineRecords(all, lines, index)
  {
    var rs := KnownLineRecords(all, lines, index);
    forall k | 0 <= k < |rs| ensures PointIndex.IsTextLine(rs[k]) {
      var l := lines[k];
      PointIndex.LineRecordIsTextLine(IntToString(index[l.layer]), PointIndex.IndexOf(all, l.start), PointIndex.IndexOf(all, l.end));
    }
    PointIndex.SplitLinesFlatten(rs);
  }

  /** A layer record gives back the layer number and the unique name. */
  lemma LayerRecordInjective(i: int, name: string, i': int, name': string)
    requires LayerRecord(i, name) == LayerRecord(i', name')
    ensures i == i' && name == name'
  {
    PointIndex.SpaceJoinInjective(IntToString(i), "S0 3.06E6 " + (name + "/\n"), IntToString(i'), "S0 3.06E6 " + (name' + "/\n"));
    IntToStringInjective(i, i');
    PointIndex.Cancel("S0 3.06E6 ", name, name', "/\n");
  }

  /** When no unique name holds a newline, the layer block reads back one record per layer, in order. */
  lemma LayerBlockRead(order: seq<Layer>)
    requires forall k :: 0 <= k < |order| ==> '\n' !in order[k].uniqueName
    ensures PointIndex.SplitLines(Flatten(LayerRecords(order))) == LayerRecords(order)
  {
    var rs := LayerRecords(order);
    forall k | 0 <= k < |rs| ensures PointIndex.IsTextLine(rs[k]) {
      var body := IntToString(k + 1) + " S0 3.06E6 " + order[k].uniqueName;
      assert rs[k] == body + "/\n";
      PointIndex.RecordIsTextLine(body);
    }
    PointIndex.SplitLinesFlatten(rs);
  }
}
