/**
 * lesson02/lesson_001.py, the loop of `dxf_to_json`: a 3DFACE corner reader that
 * walks the lines through one shared iterator, which the `for` loop and the
 * `next()` calls in its body both advance.
 *
 * The specification works on the stripped lines (the reader strips every line
 * it looks at; the lines it only skips are never inspected) and describes one
 * pass of the loop body as `Iteration`, built from the three reads it can make:
 * a section header (`SectionStep`), an entity marker (`MarkerStep`) and a corner
 * (`CornerStep`). `FaceRun` runs the loop to the end, including the final append.
 */
module FaceReader {
  import opened Wrappers
  import opened Text
  import opened Entities

  /** `iter(lines)`: the lines and the position of the next one `next()` returns. */
  class LineIterator {
    const lines: seq<string>
    var pos: nat

    constructor (lines: seq<string>)
      ensures this.lines == lines && pos == 0
    {
      this.lines := lines;
      pos := 0;
    }

    /** `next(iterator)`: the next line, or StopIteration when none is left. */
    method Next() returns (r: Result<string>)
      modifies this
      ensures old(pos) < |lines| ==> r == Ok(lines[old(pos)]) && pos == old(pos) + 1
      ensures old(pos) >= |lines| ==> r == Err(StopIteration) && pos == old(pos)
    {
      if pos < |lines| {
        r := Ok(lines[pos]);
        pos := pos + 1;
      } else {
        r := Err(StopIteration);
      }
    }
  }

  /** What a read leaves: the position of the iterator after it and the value it produced. */
  datatype Read<T> = Read(pos: nat, value: T)

  /**
   * The reads after a "SECTION" line, from position `p`: a following "2" and the
   * section type set the flag to "type is ENTITIES"; any other line is consumed and
   * leaves the flag as it was.
   */
  function SectionStep(t: seq<string>, p: nat, section: bool): (r: Result<Read<bool>>)
    ensures r.Ok? ==> p < r.value.pos <= |t|
  {
    if p >= |t| then Err(StopIteration)
    else if t[p] != "2" then Ok(Read(p + 1, section))
    else if p + 1 >= |t| then Err(StopIteration)
    else Ok(Read(p + 2, t[p + 1] == "ENTITIES"))
  }

  /**
   * The reads after a "0" line in the section: the next line is always consumed;
   * when it is "3DFACE" two more lines are skipped and a face opens (`value`).
   */
  function MarkerStep(t: seq<string>, p: nat): (r: Result<Read<bool>>)
    ensures r.Ok? ==> p < r.value.pos <= |t|
  {
    if p >= |t| then Err(StopIteration)
    else if t[p] != "3DFACE" then Ok(Read(p + 1, false))
    else if p + 2 >= |t| then Err(StopIteration)
    else Ok(Read(p + 3, true))
  }

  /** `float(next(iterator).strip())`. */
  function ReadValue(t: seq<string>, p: nat, toFloat: string -> Option<real>): Result<real> {
    if p >= |t| then Err(StopIteration)
    else match toFloat(t[p])
      case None => Err(ValueError)
      case Some(v) => Ok(v)
  }

  /** The reads after a code 10..13 line: x, a skipped line, y, a skipped line, z. */
  function CornerStep(t: seq<string>, p: nat, toFloat: string -> Option<real>): (r: Result<Read<Xyz>>)
    ensures r.Ok? ==> r.value.pos == p + 5 <= |t|
  {
    match ReadValue(t, p, toFloat)
    case Err(e) => Err(e)
    case Ok(x) =>
      if p + 1 >= |t| then Err(StopIteration)
      else match ReadValue(t, p + 2, toFloat)
        case Err(e) => Err(e)
        case Ok(y) =>
          if p + 3 >= |t| then Err(StopIteration)
          else match ReadValue(t, p + 4, toFloat)
            case Err(e) => Err(e)
            case Ok(z) => Ok(Read(p + 5, Xyz(x, y, z)))
  }

  /** The corner codes, each of which the reader handles alike. */
  predicate IsCornerCode(line: string) {
    line == "10" || line == "11" || line == "12" || line == "13"
  }

  /** The loop's variables: the iterator position, `entities_section`, `current_face`, `faces`. */
  datatype State = State(pos: nat, section: bool, current: Option<seq<Xyz>>, faces: seq<seq<Xyz>>)

  /** Appending the open face, if any, and opening a new empty one. */
  function OpenFace(st: State): State {
    var faces := if st.current.Some? then st.faces + [st.current.value] else st.faces;
    st.(current := Some([]), faces := faces)
  }

  /** The "SECTION" test of the loop body, `st.pos` being past the line. */
  function SectionPart(t: seq<string>, line: string, st: State): (r: Result<State>)
    requires st.pos <= |t|
    ensures r.Ok? ==> st.pos <= r.value.pos <= |t|
  {
    if line != "SECTION" then Ok(st)
    else match SectionStep(t, st.pos, st.section)
      case Err(e) => Err(e)
      case Ok(rd) => Ok(st.(pos := rd.pos, section := rd.value))
  }

  /** The "0" test of the loop body inside the entities section. */
  function MarkerPart(t: seq<string>, line: string, st: State): (r: Result<State>)
    requires st.pos <= |t|
    ensures r.Ok? ==> st.pos <= r.value.pos <= |t|
  {
    if line != "0" then Ok(st)
    else match MarkerStep(t, st.pos)
      case Err(e) => Err(e)
      case Ok(rd) => Ok(if rd.value then OpenFace(st.(pos := rd.pos)) else st.(pos := rd.pos))
  }

  /** The corner-code test of the loop body inside the entities section. */
  function CornerPart(t: seq<string>, line: string, st: State, toFloat: string -> Option<real>): (r: Result<State>)
    requires st.pos <= |t|
    ensures r.Ok? ==> st.pos <= r.value.pos <= |t|
  {
    if !IsCornerCode(line) then Ok(st)
    else match CornerStep(t, st.pos, toFloat)
      case Err(e) => Err(e)
      case Ok(rd) =>
        match st.current
        case None => Err(AttributeError)
        case Some(face) => Ok(st.(pos := rd.pos, current := Some(face + [rd.value])))
  }

  /** The tests of the loop body that run inside the entities section. */
  function EntityPart(t: seq<string>, line: string, st: State, toFloat: string -> Option<real>): (r: Result<State>)
    requires st.pos <= |t|
    ensures r.Ok? ==> st.pos <= r.value.pos <= |t|
  {
    match MarkerPart(t, line, st)
    case Err(e) => Err(e)
    case Ok(s2) => CornerPart(t, line, s2, toFloat)
  }

  /** One pass of the loop body for the line at `st.pos`. */
  function Iteration(t: seq<string>, st: State, toFloat: string -> Option<real>): (r: Result<State>)
    requires st.pos < |t|
    ensures r.Ok? ==> st.pos < r.value.pos <= |t|
  {
    var line := t[st.pos];
    match SectionPart(t, line, st.(pos := st.pos + 1))
    case Err(e) => Err(e)
    case Ok(s1) =>
      if !s1.section then Ok(s1) else EntityPart(t, line, s1, toFloat)
  }

  /** The pass past the "SECTION" test goes on inside the entities section only. */
  lemma SectionPasses(t: seq<string>, st: State, s1: State, toFloat: string -> Option<real>)
    requires st.pos < |t| && SectionPart(t, t[st.pos], st.(pos := st.pos + 1)) == Ok(s1)
    ensures Iteration(t, st, toFloat) == if s1.section then EntityPart(t, t[st.pos], s1, toFloat) else Ok(s1)
  {
  }

  /** The faces after the loop: the open face, if any, is appended last. */
  function Finish(st: State): seq<seq<Xyz>> {
    if st.current.Some? then st.faces + [st.current.value] else st.faces
  }

  /** The loop from `st` to the end of the lines, then the final append. */
  function FaceRun(t: seq<string>, st: State, toFloat: string -> Option<real>): Result<seq<seq<Xyz>>>
    requires st.pos <= |t|
    decreases |t| - st.pos
  {
    if st.pos == |t| then Ok(Finish(st))
    else match Iteration(t, st, toFloat)
      case Err(e) => Err(e)
      case Ok(next) => FaceRun(t, next, toFloat)
  }

  /** A pass that completes leaves the rest of the loop to run from its new state. */
  lemma RunStep(t: seq<string>, st: State, next: State, toFloat: string -> Option<real>)
    requires st.pos < |t| && Iteration(t, st, toFloat) == Ok(next)
    ensures FaceRun(t, st, toFloat) == FaceRun(t, next, toFloat)
  {
  }

  /** A pass that raises ends the loop with that exception. */
  lemma RunFails(t: seq<string>, st: State, e: Error, toFloat: string -> Option<real>)
    requires st.pos < |t| && Iteration(t, st, toFloat) == Err(e)
    ensures FaceRun(t, st, toFloat) == Err(e)
  {
  }

  const Start := State(0, false, None, [])

  /** `next(iterator).strip()`: the stripped line, or StopIteration. */
  method NextStripped(it: LineIterator, ghost t: seq<string>) returns (r: Result<string>)
    requires t == StripAll(it.lines)
    modifies it
    ensures old(it.pos) < |t| ==> r == Ok(t[old(it.pos)]) && it.pos == old(it.pos) + 1
    ensures old(it.pos) >= |t| ==> r == Err(StopIteration)
  {
    var next := it.Next();
    if next.Err? {
      return Err(next.error);
    }
    r := Ok(Strip(next.value));
  }

  /** The reads after a "SECTION" line, through the iterator. */
  method SectionHeader(it: LineIterator, ghost t: seq<string>, section: bool) returns (r: Result<bool>)
    requires t == StripAll(it.lines)
    modifies it
    ensures var spec := SectionStep(t, old(it.pos), section);
      && (r.Ok? <==> spec.Ok?)
      && (r.Ok? ==> it.pos == spec.value.pos && r.value == spec.value.value)
      && (r.Err? ==> r.error == spec.error)
  {
    var next := NextStripped(it, t);
    if next.Err? {
      return Err(next.error);
    }
    r := Ok(section);
    if next.value == "2" {
      var sectionType := NextStripped(it, t);
      if sectionType.Err? {
        return Err(sectionType.error);
      }
      if sectionType.value == "ENTITIES" {
        r := Ok(true);
      } else {
        r := Ok(false);
      }
    }
  }

  /** The reads after a "0" line: whether a 3DFACE starts. */
  method FaceMarker(it: LineIterator, ghost t: seq<string>) returns (r: Result<bool>)
    requires t == StripAll(it.lines)
    modifies it
    ensures var spec := MarkerStep(t, old(it.pos));
      && (r.Ok? <==> spec.Ok?)
      && (r.Ok? ==> it.pos == spec.value.pos && r.value == spec.value.value)
      && (r.Err? ==> r.error == spec.error)
  {
    var next := NextStripped(it, t);
    if next.Err? {
      return Err(next.error);
    }
    if next.value != "3DFACE" {
      return Ok(false);
    }
    var skip := Skip(it, t);
    if skip.Err? {
      return Err(skip.error);
    }
    skip := Skip(it, t);
    if skip.Err? {
      return Err(skip.error);
    }
    r := Ok(true);
  }

  /** `float(next(iterator).strip())` through the iterator. */
  method NextValue(it: LineIterator, ghost t: seq<string>, toFloat: string -> Option<real>) returns (r: Result<real>)
    requires t == StripAll(it.lines)
    modifies it
    ensures r == ReadValue(t, old(it.pos), toFloat)
    ensures r.Ok? ==> it.pos == old(it.pos) + 1
  {
    var text := NextStripped(it, t);
    if text.Err? {
      return Err(text.error);
    }
    var v := toFloat(text.value);
    if v.None? {
      return Err(ValueError);
    }
    r := Ok(v.value);
  }

  /** `next(iterator)` for a line that is skipped. */
  method Skip(it: LineIterator, ghost t: seq<string>) returns (r: Result<()>)
    requires t == StripAll(it.lines)
    modifies it
    ensures old(it.pos) < |t| ==> r == Ok(()) && it.pos == old(it.pos) + 1
    ensures old(it.pos) >= |t| ==> r == Err(StopIteration)
  {
    var next := it.Next();
    if next.Err? {
      return Err(next.error);
    }
    r := Ok(());
  }

  /** The reads after a code 10..13 line, through the iterator. */
  method NextCorner(it: LineIterator, ghost t: seq<string>, toFloat: string -> Option<real>) returns (r: Result<Xyz>)
    requires t == StripAll(it.lines)
    modifies it
    ensures var spec := CornerStep(t, old(it.pos), toFloat);
      && (r.Ok? <==> spec.Ok?)
      && (r.Ok? ==> it.pos == spec.value.pos && r.value == spec.value.value)
      && (r.Err? ==> r.error == spec.error)
  {
    ghost var p := it.pos;
    var x := NextValue(it, t, toFloat);
    if x.Err? {
      return Err(x.error);
    }
    var skip := Skip(it, t);
    if skip.Err? {
      return Err(skip.error);
    }
    var y := NextValue(it, t, toFloat);
    if y.Err? {
      return Err(y.error);
    }
    assert it.pos == p + 3;
    skip := Skip(it, t);
    if skip.Err? {
      return Err(skip.error);
    }
    var z := NextValue(it, t, toFloat);
    if z.Err? {
      return Err(z.error);
    }
    assert ReadValue(t, p + 4, toFloat) == z;
    r := Ok(Xyz(x.value, y.value, z.value));
  }

  /** The part of the loop body that runs inside the entities section, for the line `line`. */
  method EntityLine(it: LineIterator, ghost t: seq<string>, line: string, current: Option<seq<Xyz>>,
                    faces: seq<seq<Xyz>>, toFloat: string -> Option<real>) returns (r: Result<State>)
    requires t == StripAll(it.lines) && it.pos <= |t|
    modifies it
    ensures r == EntityPart(t, line, State(old(it.pos), true, current, faces), toFloat)
    ensures r.Ok? ==> it.pos == r.value.pos
  {
    var currentFace := current;
    var allFaces := faces;
    if line == "0" {
      var opens := FaceMarker(it, t);
      if opens.Err? {
        return Err(opens.error);
      }
      if opens.value {
        if currentFace.Some? {
          allFaces := allFaces + [currentFace.value];
        }
        currentFace := Some([]);
      }
    }
    ghost var s2 := State(it.pos, true, currentFace, allFaces);
    assert MarkerPart(t, line, State(old(it.pos), true, current, faces)) == Ok(s2);
    if IsCornerCode(line) {
      var corner := NextCorner(it, t, toFloat);
      if corner.Err? {
        return Err(corner.error);
      }
      if currentFace.None? {
        return Err(AttributeError);
      }
      currentFace := Some(currentFace.value + [corner.value]);
    }
    r := Ok(State(it.pos, true, currentFace, allFaces));
  }

  /** One pass of the loop of `dxf_to_json`: the stripped line, the "SECTION" test, then the entity tests. */
  method LoopPass(it: LineIterator, ghost t: seq<string>, section: bool, current: Option<seq<Xyz>>,
                  faces: seq<seq<Xyz>>, toFloat: string -> Option<real>) returns (r: Result<State>)
    requires t == StripAll(it.lines) && it.pos < |t|
    modifies it
    ensures r == Iteration(t, State(old(it.pos), section, current, faces), toFloat)
    ensures r.Ok? ==> it.pos == r.value.pos
  {
    ghost var st := State(it.pos, section, current, faces);
    var next := NextStripped(it, t);
    var line := next.value;
    var entitiesSection := section;
    if line == "SECTION" {
      var s := SectionHeader(it, t, entitiesSection);
      if s.Err? {
        return Err(s.error);
      }
      entitiesSection := s.value;
    }
    var s1 := State(it.pos, entitiesSection, current, faces);
    SectionPasses(t, st, s1, toFloat);
    if !entitiesSection {
      return Ok(s1);
    }
    r := EntityLine(it, t, line, current, faces, toFloat);
  }

  /**
   * The loop of `dxf_to_json` and the final append, over the lines of the file:
   * the faces it would dump, or the exception it raises.
   */
  method DxfToFaces(lines: seq<string>, toFloat: string -> Option<real>) returns (r: Result<seq<seq<Xyz>>>)
    ensures r == FaceRun(StripAll(lines), Start, toFloat)
  {
    ghost var t := StripAll(lines);
    ghost var total := FaceRun(t, Start, toFloat);
    var faces: seq<seq<Xyz>> := [];
    var currentFace: Option<seq<Xyz>> := None;
    var it := new LineIterator(lines);
    var entitiesSection := false;
    while it.pos < |lines|
      invariant it.lines == lines && it.pos <= |lines|
      invariant FaceRun(t, State(it.pos, entitiesSection, currentFace, faces), toFloat) == total
      decreases |lines| - it.pos
    {
      ghost var st := State(it.pos, entitiesSection, currentFace, faces);
      var pass := LoopPass(it, t, entitiesSection, currentFace, faces, toFloat);
      if pass.Err? {
        RunFails(t, st, pass.error, toFloat);
        return Err(pass.error);
      }
      RunStep(t, st, pass.value, toFloat);
      entitiesSection, currentFace, faces := pass.value.section, pass.value.current, pass.value.faces;
    }
    if currentFace.Some? {
      faces := faces + [currentFace.value];
    }
    r := Ok(faces);
  }

  /**
   * The faces `faces` are what the loop may still produce from `st`: the faces
   * already appended stay first and unchanged, and the open face, if any, comes
   * next with at least the corners it has so far.
   */
  predicate Extends(st: State, faces: seq<seq<Xyz>>) {
    && st.faces <= faces
    && (st.current.Some? ==> |faces| > |st.faces| && st.current.value <= faces[|st.faces|])
  }

  /** One pass of the loop only appends: what extends the new state extends the old one. */
  lemma IterationExtends(t: seq<string>, st: State, next: State, faces: seq<seq<Xyz>>, toFloat: string -> Option<real>)
    requires st.pos < |t| && Iteration(t, st, toFloat) == Ok(next) && Extends(next, faces)
    ensures Extends(st, faces)
  {
    var line := t[st.pos];
    var s1 := SectionPart(t, line, st.(pos := st.pos + 1)).value;
    if s1.section {
      var s2 := MarkerPart(t, line, s1).value;
      assert s2.faces == s1.faces || (s1.current.Some? && s2.faces == s1.faces + [s1.current.value]);
      assert s1.faces <= s2.faces;
      if s1.current.Some? && s2.faces == s1.faces + [s1.current.value] {
        assert faces[|s1.faces|] == s2.faces[|s1.faces|];
      }
    }
  }

  /**
   * Faces are only ever appended: the faces appended before any point of the run
   * come first in the result, unchanged, and a face open at that point is in the
   * result with all the corners it had.
   */
  lemma {:induction false} RunExtends(t: seq<string>, st: State, toFloat: string -> Option<real>)
    requires st.pos <= |t| && FaceRun(t, st, toFloat).Ok?
    ensures Extends(st, FaceRun(t, st, toFloat).value)
    decreases |t| - st.pos
  {
    if st.pos < |t| {
      var next := Iteration(t, st, toFloat).value;
      RunExtends(t, next, toFloat);
      IterationExtends(t, st, next, FaceRun(t, st, toFloat).value, toFloat);
    } else {
      assert Finish(st)[..|st.faces|] == st.faces;
    }
  }

  /** Outside an entities section, and with no "SECTION" line left, nothing is read. */
  lemma {:induction false} NoSectionNoFaces(t: seq<string>, st: State, toFloat: string -> Option<real>)
    requires st.pos <= |t| && !st.section
    requires forall k :: st.pos <= k < |t| ==> t[k] != "SECTION"
    ensures FaceRun(t, st, toFloat) == Ok(Finish(st))
    decreases |t| - st.pos
  {
    if st.pos < |t| {
      assert Iteration(t, st, toFloat) == Ok(st.(pos := st.pos + 1));
      NoSectionNoFaces(t, st.(pos := st.pos + 1), toFloat);
    }
  }

  /** A file without a "SECTION" line gives no faces. */
  lemma NoSectionNoFacesAtAll(t: seq<string>, toFloat: string -> Option<real>)
    requires forall k :: 0 <= k < |t| ==> t[k] != "SECTION"
    ensures FaceRun(t, Start, toFloat) == Ok([])
  {
    NoSectionNoFaces(t, Start, toFloat);
  }

  /** A "SECTION" line followed by "2" and a type sets the flag to "type is ENTITIES". */
  lemma SectionPass(t: seq<string>, st: State, toFloat: string -> Option<real>)
    requires st.pos + 2 < |t| && t[st.pos] == "SECTION" && t[st.pos + 1] == "2"
    ensures FaceRun(t, st, toFloat) == FaceRun(t, st.(pos := st.pos + 3, section := t[st.pos + 2] == "ENTITIES"), toFloat)
  {
    RunStep(t, st, st.(pos := st.pos + 3, section := t[st.pos + 2] == "ENTITIES"), toFloat);
  }

  /** In the entities section, "0" then "3DFACE" and two more lines close the open face and open a new one. */
  lemma FacePass(t: seq<string>, st: State, toFloat: string -> Option<real>)
    requires st.section && st.pos + 3 < |t| && t[st.pos] == "0" && t[st.pos + 1] == "3DFACE"
    ensures FaceRun(t, st, toFloat) == FaceRun(t, OpenFace(st.(pos := st.pos + 4)), toFloat)
  {
    RunStep(t, st, OpenFace(st.(pos := st.pos + 4)), toFloat);
  }

  /** In the entities section, "0" then another entity type only consumes the two lines. */
  lemma OtherEntityPass(t: seq<string>, st: State, toFloat: string -> Option<real>)
    requires st.section && st.pos + 1 < |t| && t[st.pos] == "0" && t[st.pos + 1] != "3DFACE"
    ensures FaceRun(t, st, toFloat) == FaceRun(t, st.(pos := st.pos + 2), toFloat)
  {
    RunStep(t, st, st.(pos := st.pos + 2), toFloat);
  }

  /** In the entities section, a corner code and its three values append a corner to the open face. */
  lemma CornerPass(t: seq<string>, st: State, x: real, y: real, z: real, toFloat: string -> Option<real>)
    requires st.section && st.current.Some? && st.pos + 5 < |t| && IsCornerCode(t[st.pos])
    requires toFloat(t[st.pos + 1]) == Some(x) && toFloat(t[st.pos + 3]) == Some(y) && toFloat(t[st.pos + 5]) == Some(z)
    ensures FaceRun(t, st, toFloat)
            == FaceRun(t, st.(pos := st.pos + 6, current := Some(st.current.value + [Xyz(x, y, z)])), toFloat)
  {
    RunStep(t, st, st.(pos := st.pos + 6, current := Some(st.current.value + [Xyz(x, y, z)])), toFloat);
  }

  /** At the end of the lines the loop stops and the open face is appended. */
  lemma RunDone(t: seq<string>, st: State, toFloat: string -> Option<real>)
    requires st.pos == |t|
    ensures FaceRun(t, st, toFloat) == Ok(Finish(st))
  {
  }

  /**
   * The opening of the examples below: an ENTITIES section whose first entity is a
   * 3DFACE with the corner (1, 2, 3); the face is still open after line 12.
   */
  lemma FaceHead(t: seq<string>, toFloat: string -> Option<real>)
    requires |t| >= 13 && t[0] == "SECTION" && t[1] == "2" && t[2] == "ENTITIES"
    requires t[3] == "0" && t[4] == "3DFACE" && t[7] == "10"
    requires toFloat(t[8]) == Some(1.0) && toFloat(t[10]) == Some(2.0) && toFloat(t[12]) == Some(3.0)
    ensures FaceRun(t, Start, toFloat) == FaceRun(t, State(13, true, Some([Xyz(1.0, 2.0, 3.0)]), []), toFloat)
  {
    SectionPass(t, Start, toFloat);
    FacePass(t, State(3, true, None, []), toFloat);
    CornerPass(t, State(7, true, Some([]), []), 1.0, 2.0, 3.0, toFloat);
    assert [] + [Xyz(1.0, 2.0, 3.0)] == [Xyz(1.0, 2.0, 3.0)];
  }

  /** A face with one corner: the lines `SECTION 2 ENTITIES 0 3DFACE 8 L 10 1 20 2 30 3`. */
  lemma OneFace(t: seq<string>, toFloat: string -> Option<real>)
    requires |t| == 13 && t[0] == "SECTION" && t[1] == "2" && t[2] == "ENTITIES"
    requires t[3] == "0" && t[4] == "3DFACE" && t[7] == "10"
    requires toFloat(t[8]) == Some(1.0) && toFloat(t[10]) == Some(2.0) && toFloat(t[12]) == Some(3.0)
    ensures FaceRun(t, Start, toFloat) == Ok([[Xyz(1.0, 2.0, 3.0)]])
  {
    FaceHead(t, toFloat);
    RunDone(t, State(13, true, Some([Xyz(1.0, 2.0, 3.0)]), []), toFloat);
    assert [] + [[Xyz(1.0, 2.0, 3.0)]] == [[Xyz(1.0, 2.0, 3.0)]];
  }

  /** A corner before any 3DFACE marker, as in `SECTION 2 ENTITIES 10 1 20 2 30 3`, appends to `None`: AttributeError. */
  lemma CornerBeforeFace(t: seq<string>, toFloat: string -> Option<real>)
    requires |t| == 9 && t[0] == "SECTION" && t[1] == "2" && t[2] == "ENTITIES" && t[3] == "10"
    requires toFloat(t[4]).Some? && toFloat(t[6]).Some? && toFloat(t[8]).Some?
    ensures FaceRun(t, Start, toFloat) == Err(AttributeError)
  {
    SectionPass(t, Start, toFloat);
    RunFails(t, State(3, true, None, []), AttributeError, toFloat);
  }

  /** A file ending in the middle of a corner, as in `SECTION 2 ENTITIES 0 3DFACE 8 L 10 1`: StopIteration escapes. */
  lemma CutCorner(t: seq<string>, toFloat: string -> Option<real>)
    requires |t| == 9 && t[0] == "SECTION" && t[1] == "2" && t[2] == "ENTITIES"
    requires t[3] == "0" && t[4] == "3DFACE" && t[7] == "10" && toFloat(t[8]).Some?
    ensures FaceRun(t, Start, toFloat) == Err(StopIteration)
  {
    SectionPass(t, Start, toFloat);
    FacePass(t, State(3, true, None, []), toFloat);
    RunFails(t, State(7, true, Some([]), []), StopIteration, toFloat);
  }

  /** A coordinate that is not a number, as `x` in `SECTION 2 ENTITIES 0 3DFACE 8 L 10 x`: ValueError. */
  lemma BadCoordinate(t: seq<string>, toFloat: string -> Option<real>)
    requires |t| == 9 && t[0] == "SECTION" && t[1] == "2" && t[2] == "ENTITIES"
    requires t[3] == "0" && t[4] == "3DFACE" && t[7] == "10" && toFloat(t[8]).None?
    ensures FaceRun(t, Start, toFloat) == Err(ValueError)
  {
    SectionPass(t, Start, toFloat);
    FacePass(t, State(3, true, None, []), toFloat);
    RunFails(t, State(7, true, Some([]), []), ValueError, toFloat);
  }

  /**
   * The corners of the entities after a face, a LINE here, join that face: the
   * reader neither stops at four corners nor checks the entity type. The lines
   * are the one-corner face, then `0 LINE 11 3 21 2 31 1`.
   */
  lemma LineCornersJoinFace(t: seq<string>, toFloat: string -> Option<real>)
    requires |t| == 21 && t[0] == "SECTION" && t[1] == "2" && t[2] == "ENTITIES"
    requires t[3] == "0" && t[4] == "3DFACE" && t[7] == "10"
    requires toFloat(t[8]) == Some(1.0) && toFloat(t[10]) == Some(2.0) && toFloat(t[12]) == Some(3.0)
    requires t[13] == "0" && t[14] == "LINE" && t[15] == "11"
    requires toFloat(t[16]) == Some(3.0) && toFloat(t[18]) == Some(2.0) && toFloat(t[20]) == Some(1.0)
    ensures FaceRun(t, Start, toFloat) == Ok([[Xyz(1.0, 2.0, 3.0), Xyz(3.0, 2.0, 1.0)]])
  {
    FaceHead(t, toFloat);
    LineCornersTail(t, toFloat);
  }

  lemma LineCornersTail(t: seq<string>, toFloat: string -> Option<real>)
    requires |t| == 21 && t[13] == "0" && t[14] == "LINE" && t[15] == "11"
    requires toFloat(t[16]) == Some(3.0) && toFloat(t[18]) == Some(2.0) && toFloat(t[20]) == Some(1.0)
    ensures FaceRun(t, State(13, true, Some([Xyz(1.0, 2.0, 3.0)]), []), toFloat)
            == Ok([[Xyz(1.0, 2.0, 3.0), Xyz(3.0, 2.0, 1.0)]])
  {
    OtherEntityPass(t, State(13, true, Some([Xyz(1.0, 2.0, 3.0)]), []), toFloat);
    CornerPass(t, State(15, true, Some([Xyz(1.0, 2.0, 3.0)]), []), 3.0, 2.0, 1.0, toFloat);
    assert [Xyz(1.0, 2.0, 3.0)] + [Xyz(3.0, 2.0, 1.0)] == [Xyz(1.0, 2.0, 3.0), Xyz(3.0, 2.0, 1.0)];
    RunDone(t, State(21, true, Some([Xyz(1.0, 2.0, 3.0), Xyz(3.0, 2.0, 1.0)]), []), toFloat);
    assert [] + [[Xyz(1.0, 2.0, 3.0), Xyz(3.0, 2.0, 1.0)]] == [[Xyz(1.0, 2.0, 3.0), Xyz(3.0, 2.0, 1.0)]];
  }

  /** Each 3DFACE marker closes the open face and opens a new one: the one-corner face, then `0 3DFACE 8 L`. */
  lemma TwoFaces(t: seq<string>, toFloat: string -> Option<real>)
    requires |t| == 17 && t[0] == "SECTION" && t[1] == "2" && t[2] == "ENTITIES"
    requires t[3] == "0" && t[4] == "3DFACE" && t[7] == "10"
    requires toFloat(t[8]) == Some(1.0) && toFloat(t[10]) == Some(2.0) && toFloat(t[12]) == Some(3.0)
    requires t[13] == "0" && t[14] == "3DFACE"
    ensures FaceRun(t, Start, toFloat) == Ok([[Xyz(1.0, 2.0, 3.0)], []])
  {
    FaceHead(t, toFloat);
    FacePass(t, State(13, true, Some([Xyz(1.0, 2.0, 3.0)]), []), toFloat);
    assert [] + [[Xyz(1.0, 2.0, 3.0)]] == [[Xyz(1.0, 2.0, 3.0)]];
    RunDone(t, State(17, true, Some([]), [[Xyz(1.0, 2.0, 3.0)]]), toFloat);
    assert Finish(State(17, true, Some([]), [[Xyz(1.0, 2.0, 3.0)]])) == [[Xyz(1.0, 2.0, 3.0)], []];
  }

  /** Corners outside the entities section are not read as corners. */
  lemma OtherSectionIgnored(toFloat: string -> Option<real>)
    ensures FaceRun(["SECTION", "2", "HEADER", "0", "3DFACE", "8", "L", "10", "1"], Start, toFloat) == Ok([])
  {
  }
}
