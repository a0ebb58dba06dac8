/**
 * lesson02/rustc/main.rs: a reader that pairs each integer code line with the line
 * after it, collects the values of the pending entity under their codes, and on
 * code 0 emits the pending POINT, LINE or 3DFACE record before switching to the
 * entity type the value line names.
 *
 * The records the program prints are the output here; the file is the sequence
 * of its lines. The reader is specified in two layers: `Pairs`, the (code, value)
 * pairs the loop consumes, and `Emit`, what it makes of those pairs.
 */
module RustParser {
  import opened Wrappers
  import opened Text
  import opened Entities
  import opened GroupCodes

  datatype RustLine = RustLine(start: Xyz, end: Xyz)

  /** `E3DFace { points: [Point; 4] }`. */
  datatype RustFace = RustFace(points: seq<Xyz>)

  /** One `Parsed ...` record printed by `parse`. */
  datatype Record = PointRecord(p: Xyz) | LineRecord(l: RustLine) | FaceRecord(f: RustFace)

  /** `parse_point`: codes 10, 20, 30. */
  function ParsePoint(data: map<string, real>): Xyz {
    CodePoint(data, 0)
  }

  /** `parse_line`: start from 10/20/30, end from 11/21/31. */
  function ParseLine(data: map<string, real>): RustLine {
    RustLine(CodePoint(data, 0), CodePoint(data, 1))
  }

  /** `parse_3dface`: corners from codes 1n/2n/3n, n = 0..3, in that order. */
  function Parse3DFace(data: map<string, real>): (f: RustFace)
    ensures |f.points| == 4
    ensures forall n :: 0 <= n < 4 ==> f.points[n] == CodePoint(data, n)
  {
    RustFace([CodePoint(data, 0), CodePoint(data, 1), CodePoint(data, 2), CodePoint(data, 3)])
  }

  /**
   * The three record builders read the same fields the same way: a line starts at
   * the point record, and its two ends are the first two corners of the face record.
   */
  lemma ParsersAgree(data: map<string, real>)
    ensures ParseLine(data).start == ParsePoint(data)
    ensures Parse3DFace(data).points[0] == ParseLine(data).start
    ensures Parse3DFace(data).points[1] == ParseLine(data).end
  {
  }

  /** What code 0 prints for the pending entity type: a record for POINT, LINE and 3DFACE only. */
  function Flush(entity: string, data: map<string, real>): (out: seq<Record>)
    ensures |out| <= 1
  {
    if entity == "POINT" then [PointRecord(ParsePoint(data))]
    else if entity == "LINE" then [LineRecord(ParseLine(data))]
    else if entity == "3DFACE" then [FaceRecord(Parse3DFace(data))]
    else []
  }

  predicate IsRecordType(entity: string) {
    entity == "POINT" || entity == "LINE" || entity == "3DFACE"
  }

  lemma FlushEmitsRecordTypes(entity: string, data: map<string, real>)
    ensures |Flush(entity, data)| == 1 <==> IsRecordType(entity)
  {
  }

  /** A code line and the value line that follows it. */
  datatype Pair = Pair(code: int, value: string)

  /** `line.trim().parse::<i32>().ok()` for every line. */
  function LineCodes(lines: seq<string>): (codes: seq<Option<int>>)
    ensures |codes| == |lines|
    ensures forall k :: 0 <= k < |lines| ==> codes[k] == ParseI32(Trim(lines[k]))
  {
    seq(|lines|, k requires 0 <= k < |lines| => ParseI32(Trim(lines[k])))
  }

  /**
   * The pairs the `while let` loop consumes from line `i` on, given the code each
   * line parses as: a code line takes the next line as its value; any other line
   * is skipped; a code line with no line after it ends the input.
   */
  function PairsFrom(lines: seq<string>, codes: seq<Option<int>>, i: nat): seq<Pair>
    requires |codes| == |lines|
    decreases |lines| - i
  {
    if i >= |lines| then []
    else match codes[i]
      case None => PairsFrom(lines, codes, i + 1)
      case Some(c) => if i + 1 < |lines| then [Pair(c, lines[i + 1])] + PairsFrom(lines, codes, i + 2) else []
  }

  function Pairs(lines: seq<string>): seq<Pair> {
    PairsFrom(lines, LineCodes(lines), 0)
  }

  /** Every pair is a code line, followed by its value line; the pairs use at most all the lines. */
  lemma {:induction false} PairsFromLines(lines: seq<string>, codes: seq<Option<int>>, i: nat)
    requires |codes| == |lines|
    ensures 2 * |PairsFrom(lines, codes, i)| <= |lines| - i || PairsFrom(lines, codes, i) == []
    ensures forall k :: 0 <= k < |PairsFrom(lines, codes, i)| ==>
      exists j :: (&& i <= j && j + 1 < |lines|
                   && codes[j] == Some(PairsFrom(lines, codes, i)[k].code)
                   && lines[j + 1] == PairsFrom(lines, codes, i)[k].value)
    decreases |lines| - i
  {
    if i < |lines| {
      var ps := PairsFrom(lines, codes, i);
      match codes[i]
      case None =>
        PairsFromLines(lines, codes, i + 1);
      case Some(c) =>
        if i + 1 < |lines| {
          PairsFromLines(lines, codes, i + 2);
          var rest := PairsFrom(lines, codes, i + 2);
          assert ps == [Pair(c, lines[i + 1])] + rest;
          forall k | 0 <= k < |ps|
            ensures exists j :: (&& i <= j && j + 1 < |lines|
                                 && codes[j] == Some(ps[k].code) && lines[j + 1] == ps[k].value)
          {
            if k == 0 {
              assert codes[i] == Some(ps[0].code) && lines[i + 1] == ps[0].value;
            } else {
              assert ps[k] == rest[k - 1];
            }
          }
        }
    }
  }

  /** `value.parse().unwrap_or(0.0)`. */
  function ParseOr0(toF64: string -> Option<real>, value: string): real {
    match toF64(value)
    case Some(v) => v
    case None => 0.0
  }

  /**
   * What the loop prints for the pairs `ps`, with `entity` pending and its fields
   * `data` collected: code 0 flushes and switches the entity type to the value
   * line as read (untrimmed), any other code stores its value under `code.to_string()`.
   * Nothing is flushed after the last pair.
   */
  function Emit(ps: seq<Pair>, entity: string, data: map<string, real>, toF64: string -> Option<real>): seq<Record> {
    if ps == [] then []
    else if ps[0].code == 0 then Flush(entity, data) + Emit(ps[1..], ps[0].value, map[], toF64)
    else Emit(ps[1..], entity, data[IntToString(ps[0].code) := ParseOr0(toF64, ps[0].value)], toF64)
  }

  /** The entity type in force after the pairs `ps`: the value of the last code-0 pair. */
  function TypeAfter(ps: seq<Pair>, entity: string): string {
    if ps == [] then entity
    else if ps[|ps| - 1].code == 0 then ps[|ps| - 1].value
    else TypeAfter(ps[..|ps| - 1], entity)
  }

  /** The fields collected after the pairs `ps`: everything stored since the last code-0 pair. */
  function DataAfter(ps: seq<Pair>, data: map<string, real>, toF64: string -> Option<real>): map<string, real> {
    if ps == [] then data
    else
      var p := ps[|ps| - 1];
      if p.code == 0 then map[]
      else DataAfter(ps[..|ps| - 1], data, toF64)[IntToString(p.code) := ParseOr0(toF64, p.value)]
  }

  /**
   * Records are printed only at code-0 pairs: one more pair adds the record of the
   * type in force with the fields collected so far if its code is 0, and nothing
   * otherwise.
   */
  lemma {:induction false} EmitSnoc(ps: seq<Pair>, p: Pair, entity: string, data: map<string, real>,
                                    toF64: string -> Option<real>)
    ensures Emit(ps + [p], entity, data, toF64) == Emit(ps, entity, data, toF64)
      + (if p.code == 0 then Flush(TypeAfter(ps, entity), DataAfter(ps, data, toF64)) else [])
    decreases |ps|
  {
    if ps == [] {
      assert [p][1..] == [];
    } else {
      var q := ps[0];
      assert (ps + [p])[1..] == ps[1..] + [p];
      assert (ps + [p])[0] == q;
      if q.code == 0 {
        EmitSnoc(ps[1..], p, q.value, map[], toF64);
        SuffixState(ps, entity, data, toF64);
      } else {
        var d := data[IntToString(q.code) := ParseOr0(toF64, q.value)];
        EmitSnoc(ps[1..], p, entity, d, toF64);
        SuffixState(ps, entity, data, toF64);
      }
    }
  }

  /** The state after `ps` is the state after its tail, started from the state after its head. */
  lemma {:induction false} SuffixState(ps: seq<Pair>, entity: string, data: map<string, real>,
                                       toF64: string -> Option<real>)
    requires ps != []
    ensures var q := ps[0];
      var e := if q.code == 0 then q.value else entity;
      var d := if q.code == 0 then map[] else data[IntToString(q.code) := ParseOr0(toF64, q.value)];
      TypeAfter(ps, entity) == TypeAfter(ps[1..], e) && DataAfter(ps, data, toF64) == DataAfter(ps[1..], d, toF64)
    decreases |ps|
  {
    if |ps| > 1 {
      var init := ps[..|ps| - 1];
      SuffixState(init, entity, data, toF64);
      assert init[0] == ps[0];
      assert init[1..] == ps[1..][..|ps[1..]| - 1];
    }
  }

  /** A later value for the same code overrides the earlier one; other codes keep theirs. */
  lemma StoreOverrides(ps: seq<Pair>, c: int, v: string, data: map<string, real>,
                       toF64: string -> Option<real>, other: int)
    requires c != 0 && other != c
    ensures DataAfter(ps + [Pair(c, v)], data, toF64)[IntToString(c)] == ParseOr0(toF64, v)
    ensures var before := DataAfter(ps, data, toF64);
      var after := DataAfter(ps + [Pair(c, v)], data, toF64);
      && (IntToString(other) in after <==> IntToString(other) in before)
      && (IntToString(other) in before ==> after[IntToString(other)] == before[IntToString(other)])
  {
    assert (ps + [Pair(c, v)])[..|ps|] == ps;
    if IntToString(other) == IntToString(c) {
      IntToStringInjective(other, c);
    }
  }

  /** A POINT still pending when the input ends is never printed. */
  lemma PendingNotFlushed(toF64: string -> Option<real>)
    ensures Emit([Pair(0, "POINT"), Pair(10, "1.5")], "", map[], toF64) == []
  {
  }

  /** The next code 0 prints it, with the stored coordinate and 0.0 for the absent ones. */
  lemma PointFlushedOnCode0(toF64: string -> Option<real>)
    requires toF64("1.5") == Some(1.5)
    ensures Emit([Pair(0, "POINT"), Pair(10, "1.5"), Pair(0, "EOF")], "", map[], toF64)
      == [PointRecord(Xyz(1.5, 0.0, 0.0))]
  {
    var d := map["10" := 1.5];
    assert IntToString(10) == "10";
    assert Emit([Pair(0, "EOF")], "POINT", d, toF64) == [PointRecord(ParsePoint(d))];
    assert "20" !in d && "30" !in d;
  }

  /** The type is compared on the untrimmed value line: " POINT" is not a record type. */
  lemma UntrimmedTypeIgnored(toF64: string -> Option<real>)
    ensures Emit([Pair(0, " POINT"), Pair(0, "EOF")], "", map[], toF64) == []
  {
  }

  /** Code lines are trimmed before they are read as an `i32`. */
  lemma TrimmedCodeLine()
    ensures ParseI32(Trim(" 10 ")) == Some(10)
  {
    TrimSpaces();
    ReadTen("10");
  }

  lemma TrimSpaces()
    ensures Trim(" 10 ") == "10"
  {
  }

  lemma ReadTen(s: string)
    requires s == "10"
    ensures ParseI32(s) == Some(10)
  {
    assert s[..1] == "1" && s[..1][..0] == [];
    assert DigitsValue(s[..1]) == 1;
  }

  /** A line that is no integer is no code. */
  lemma NotACodeLine()
    ensures ParseI32(Trim("x")) == None
  {
    TrimKeeps("x");
    ReadOther("x", "0");
  }

  /** "0" is code 0. */
  lemma ZeroCodeLine()
    ensures ParseI32(Trim("0")) == Some(0)
  {
    TrimKeeps("0");
    ReadOther("x", "0");
  }

  lemma TrimKeeps(s: string)
    requires s == "x" || s == "0"
    ensures Trim(s) == s
  {
    TrimNoSpace(s);
  }

  lemma ReadOther(x: string, zero: string)
    requires x == "x" && zero == "0"
    ensures ParseI32(x) == None && ParseI32(zero) == Some(0)
  {
    assert DigitsValue(zero) == 0;
  }

  /**
   * The lines " 10 ", "1.5", "x", "0" (whose codes `CodeLineExamples` gives): the code
   * line takes its value line, "x" is skipped, and the code line "0" at the end is dropped.
   */
  lemma PairsExample(lines: seq<string>, codes: seq<Option<int>>)
    requires lines == [" 10 ", "1.5", "x", "0"] && codes == [Some(10), None, None, Some(0)]
    ensures PairsFrom(lines, codes, 0) == [Pair(10, "1.5")]
  {
    assert PairsFrom(lines, codes, 3) == [];
    assert PairsFrom(lines, codes, 2) == [];
  }

  lemma ConcatAssoc<T>(a: seq<T>, b: seq<T>, c: seq<T>)
    ensures (a + b) + c == a + (b + c)
  {
  }

  /** A code-0 pair prints the pending record, then the rest starts afresh with the new type. */
  lemma EmitCode0(p: Pair, rest: seq<Pair>, entity: string, data: map<string, real>, toF64: string -> Option<real>)
    requires p.code == 0
    ensures Emit([p] + rest, entity, data, toF64) == Flush(entity, data) + Emit(rest, p.value, map[], toF64)
  {
    assert ([p] + rest)[1..] == rest;
  }

  /** The `if current_entity == ...` chain of code 0: the record it prints, if any. */
  method PrintPending(entity: string, data: map<string, real>) returns (printed: seq<Record>)
    ensures printed == Flush(entity, data)
  {
    printed := [];
    if entity == "POINT" {
      printed := [PointRecord(ParsePoint(data))];
    } else if entity == "LINE" {
      printed := [LineRecord(ParseLine(data))];
    } else if entity == "3DFACE" {
      printed := [FaceRecord(Parse3DFace(data))];
    }
  }

  class DXFParser {
    /** The `point_map` field, which `parse` never uses. */
    var pointMap: map<string, real>

    constructor ()
      ensures pointMap == map[]
    {
      pointMap := map[];
    }

    /**
     * `DXFParser::parse` over the lines of the file: the records it prints are
     * those `Emit` makes of the pairs the loop consumes.
     */
    method Parse(lines: seq<string>, toF64: string -> Option<real>) returns (out: seq<Record>)
      ensures out == Emit(Pairs(lines), "", map[], toF64)
    {
      ghost var codes := LineCodes(lines);
      out := [];
      var currentEntity := "";
      var currentData: map<string, real> := map[];
      var i := 0;
      while i < |lines|
        invariant i <= |lines|
        invariant out + Emit(PairsFrom(lines, codes, i), currentEntity, currentData, toF64) == Emit(Pairs(lines), "", map[], toF64)
      {
        var line := lines[i];
        i := i + 1;
        var code := ParseI32(Trim(line));
        assert code == codes[i - 1];
        if code.Some? {
          if i < |lines| {
            var value := lines[i];
            i := i + 1;
            assert PairsFrom(lines, codes, i - 2) == [Pair(code.value, value)] + PairsFrom(lines, codes, i);
            if code.value == 0 {
              EmitCode0(Pair(code.value, value), PairsFrom(lines, codes, i), currentEntity, currentData, toF64);
              var printed := PrintPending(currentEntity, currentData);
              ConcatAssoc(out, printed, Emit(PairsFrom(lines, codes, i), value, map[], toF64));
              out := out + printed;
              currentEntity := value;
              currentData := map[];
            } else {
              currentData := currentData[IntToString(code.value) := ParseOr0(toF64, value)];
            }
          } else {
            i := |lines|;
          }
        }
      }
    }
  }
}
