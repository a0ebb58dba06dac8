# building_lessons in Dafny

This project models the modellable core of the `building_lessons` repository. That core is a small
pipeline that reads DXF drawings and turns them into a LIRA structural model:

- **Entities** (`introduce/lesson02/entities.py`)
  - points compare within a tolerance (`accuracy`);
  - layers decide their validity and their `unique_name` from the layer name, with two fixed regular expressions.
- **Three DXF readers** that turn the text lines of a drawing into POINT, LINE and 3DFACE records:
  - the forward-scanning parsers of `dxf_parser.py`;
  - the code-0 flush loops of `dxf_parser2.py` and of the Rust program `rustc/main.rs`;
  - the iterator-driven 3DFACE corner reader of `lesson_001.py`.
- **First-encounter deduplication and 1-based point numbering**, shared by:
  - `lesson01/calculate_elemts.py`;
  - `lesson03/lira_generator.py`;
  - `lesson03/lira_exporter.py`.
- **LIRA record text**:
  - `5 {layer} {start} {end}/` per line;
  - `{i} S0 3.06E6 {unique_name}/` per layer;
  - `{x} {y} {z}/` per numbered point.
- **Layer-validity filtering** (`filter_by_layer_template`), which drops the cached properties.
- **DOF point propagation** (`lesson03/dof_calc.py`): it selects the line ends that lie on a "degree of freedom" segment.

## How the model is built

Modules mirror the source files:

| module | source |
|---|---|
| `Entities` | `entities.py` |
| `CalculateElements` | `calculate_elemts.py` |
| `DxfParser` | `dxf_parser.py` |
| `DxfParser2` | `dxf_parser2.py` |
| `RustParser` | `rustc/main.rs` |
| `FaceReader` | `lesson_001.py` |
| `LiraGenerator` | `lira_generator.py` |
| `LiraExporter` | `lira_exporter.py` |
| `DofCalc` | `dof_calc.py` |

Shared building blocks live in their own modules:

| module | contents |
|---|---|
| `Wrappers` | Option/Result, and the Python and Rust exceptions as error values |
| `Text` | strip/trim, decimal rendering and parsing |
| `Sequences` | first-encounter dedup, first-key lookup, filter, flatten |
| `Patterns` | hand-written matchers for `B\s*(\d+)\s*H\s*(\d+)` and `H\s*(\d+)` |
| `GroupCodes` | the DXF group codes `1n/2n/3n` |
| `PointIndex` | `all_points`, `unique_points`, `get_index` and the record strings, common to the generator and the exporter |

Each loop of the source is a method proved against a specification function. The properties are stated about those functions.

- **Cached properties.** `cached_property` and the `_cache_indexes` field become `Option` fields of a class. `Valid()` ties each filled cache to the value its property computes from the current lists.
- **Exceptions.** Python exceptions (IndexError, TypeError, ValueError, KeyError, StopIteration, AttributeError) are `Err` values. Every error path of the source is modelled, not excluded by a precondition.
- **Inputs.** A drawing is the sequence of its text lines.
- **Numbers and their text.** Coordinates are `real`. Parsing a number from text (`float()`, `str::parse::<f64>`) and printing one (`str(float)`) are function-typed parameters. So is the Euclidean distance of `math.dist`.

### Quirks of the code the model keeps

- A valid layer's `unique_name` is built from the FIRST `H\s*(\d+)` match only. Each digit of that number becomes a float on its own, so "B12 H34" gives "3.0 4.0" (`Entities.LineLayerExample`).
- E3DFACE layers are checked with the same `B…H…` pattern as LINE layers (`introduce/lesson02/entities.py:29-30`).
- `dxf_parser.py` is not gated by its ENTITIES flag. A POINT, LINE or 3DFACE line anywhere before the closing ENDSEC triggers a parser, including one in a value position.
- `dxf_parser2.py` never appends an entity. Its parsers also call `Point` without the required `layer`.
- `main.rs` has no flush after its loop. It compares the entity type on the untrimmed value line.
- `dof_calc.py` raises TypeError on every distance; see "## Findings".

## Model

| member | source | states |
|---|---|---|
| Entities.Point.Equals | introduce/lesson02/entities.py:64-69 | `__eq__`: the other point lies within the receiver's accuracy on every axis; it is reflexive exactly for a non-negative accuracy (EqualsReflexive), symmetric for equal accuracies (EqualsSymmetric), not transitive (EqualsNotTransitive) and not consistent with `__hash__` (EqualPointsMayHashApart) |
| Entities.EqualsReflexive | introduce/lesson02/entities.py:64-69 | a point equals itself exactly when its accuracy is not negative |
| Entities.EqualsSymmetric | introduce/lesson02/entities.py:64-69 | with equal accuracies the order of the operands of `==` does not matter |
| Entities.EqualsNotTransitive | introduce/lesson02/entities.py:64-69 | with the default accuracy 0.005, 0 ≈ 0.004 and 0.004 ≈ 0.008 on one axis but 0 and 0.008 are not equal |
| Entities.EqualPointsMayHashApart | introduce/lesson02/entities.py:74-75 | `__hash__` uses the exact coordinates, so two `==` points can have different hash keys |
| Entities.LayerHashConsistent | introduce/lesson02/entities.py:52-53 | equal layers hash alike; layers sharing a `unique_name` but not a name hash alike yet are not equal |
| Entities.Layer.IsValid | introduce/lesson02/entities.py:45-50 | `is_valid`: a POINT layer is always valid, a LINE or E3DFACE layer exactly when its name contains a `B…H…` code (Patterns.HasLayerCodeCorrect); such a name always has an H number (Patterns.LayerCodeHasH), so only a POINT layer can raise while it is built (ShapeLayerConstructs, PointLayerWithoutNumber) |
| Entities.NewLayer | introduce/lesson02/entities.py:35-40 | construction keeps name and type; validity is the pattern test; an invalid layer keeps its name as `unique_name`; a valid one gets the spaced digits of its first H number; IndexError exactly for a POINT layer without an H number |
| Entities.ShapeLayerConstructs | introduce/lesson02/entities.py:45-50 | LINE and E3DFACE layers never raise on construction: a name valid for them has an H number |
| Entities.ShapeLayer | introduce/lesson02/entities.py:35-40 | a LINE or E3DFACE layer has the given name and type |
| Entities.ShapeLayerIsNewLayer | introduce/lesson02/entities.py:35-40 | the raise-free layer constructor agrees with the general one on LINE and E3DFACE types |
| Entities.SpacedDigitsRoundTrip | introduce/lesson02/entities.py:37 | the space-joined rendering of a digit string is 4·n−1 characters long and reads back to the same digits |
| Entities.LineLayerExample | introduce/lesson02/entities.py:35-38 | "B12 H34" as a LINE layer is valid, and its `unique_name` is "3.0 4.0" |
| Entities.LineLayerExampleCode | introduce/lesson02/entities.py:47 | "B12 H34" contains the B/H layer code, and its first H number is "34" |
| Entities.LineLayerExampleBH | introduce/lesson02/entities.py:29 | the B/H pattern matches "B12 H34" at its first character |
| Entities.LineLayerExampleH | introduce/lesson02/entities.py:32 | the first `H\s*(\d+)` capture of "B12 H34" is "34" |
| Entities.LineLayerExampleDigits | introduce/lesson02/entities.py:37 | the digits "34" render as "3.0 4.0" |
| Entities.InvalidLineLayerExample | introduce/lesson02/entities.py:40 | a LINE layer without a B/H code is invalid and keeps its name as `unique_name` |
| Entities.PointLayerWithoutNumber | introduce/lesson02/entities.py:35-37 | a POINT layer is always valid, so the name "0", which has no H number, raises IndexError |
| Patterns.SkipWhile | introduce/lesson02/entities.py:29 | the end of the maximal run of characters satisfying the test from a position: all inside satisfy it, the next one does not |
| Patterns.SkipWhileUnique | introduce/lesson02/entities.py:29 | any maximal run ends exactly where SkipWhile says |
| Patterns.NoBNoSearch | introduce/lesson02/entities.py:29 | a text without a 'B' contains no B/H layer code |
| Patterns.BHAtIsMatch | introduce/lesson02/entities.py:29 | a successful greedy attempt of the scanner is a match of `B\s*(\d+)\s*H\s*(\d+)` |
| Patterns.MatchIsBHAt | introduce/lesson02/entities.py:29 | every match of the pattern makes the scanner's greedy attempt at its start succeed |
| Patterns.HasLayerCode | introduce/lesson02/entities.py:47 | `bool(findall(...))` as a left-to-right scan for a greedy `B…H…` attempt; HasLayerCodeCorrect proves it holds exactly when the text contains a match of the pattern |
| Patterns.HasLayerCodeCorrect | introduce/lesson02/entities.py:47 | `bool(findall(...))` holds exactly when the text contains a match of the layer pattern |
| Patterns.HCapture | introduce/lesson02/entities.py:32 | the capture of an `H\s*(\d+)` match is a non-empty run of digits |
| Patterns.FirstHFrom | introduce/lesson02/entities.py:37 | a found H number is a non-empty run of digits |
| Patterns.FirstHNumber | introduce/lesson02/entities.py:37 | `findall(...)[0]`, when it exists, is a non-empty run of digits |
| Patterns.HAtIsMatch | introduce/lesson02/entities.py:32 | a successful greedy H attempt is a match of `H\s*(\d+)` with the longest digit run |
| Patterns.MatchIsHAt | introduce/lesson02/entities.py:32 | every match of `H\s*(\d+)` makes the greedy attempt at its start succeed |
| Patterns.FirstHFromSpec | introduce/lesson02/entities.py:37 | the search finds nothing exactly when no position has an H match; otherwise it returns the capture of the leftmost one |
| Patterns.FirstHNumberSpec | introduce/lesson02/entities.py:37 | `findall(...)[0]` is missing exactly when nothing matches; otherwise it is the maximal digit run of the leftmost match |
| Patterns.FirstHNumberFound | introduce/lesson02/entities.py:37 | a found H number is the maximal digit capture of a match that starts before every other match |
| Patterns.LayerCodeHasH | introduce/lesson02/entities.py:45-50 | a name that matches the layer pattern always has an H number, so a valid LINE or E3DFACE layer never raises |
| Text.TrimStartSpec | introduce/lesson02/dxf_parser.py:42 | trimming the start drops exactly a run of leading whitespace; the rest is a suffix that is empty or starts with a non-space |
| Text.TrimEndSpec | introduce/lesson02/dxf_parser.py:42 | trimming the end drops exactly a run of trailing whitespace; the rest is a prefix that is empty or ends with a non-space |
| Text.StripAll | introduce/lesson02/dxf_parser.py:132 | every line is replaced by its stripped text, one for one |
| Text.StripNoSpace | introduce/lesson02/dxf_parser.py:132 | a text without surrounding whitespace strips to itself |
| Text.TrimNoSpace | introduce/lesson02/rustc/main.rs:94 | a text without surrounding whitespace trims to itself |
| Text.DigitChar | introduce/lesson03/lira_exporter.py:66 | a digit value is rendered as the decimal character with that value |
| Text.NatToString | introduce/lesson03/lira_exporter.py:66-70 | the decimal rendering of a number is a non-empty digit string without a leading zero |
| Text.NatToStringRoundTrip | introduce/lesson03/lira_exporter.py:66-70 | reading the decimal rendering back gives the number |
| Text.NatToStringInjective | introduce/lesson03/lira_exporter.py:66-70 | different numbers are rendered differently |
| Text.IntToString | introduce/lesson02/rustc/main.rs:111 | `code.to_string()` is a non-empty run of digits with an optional leading minus |
| Text.IntToStringInjective | introduce/lesson02/rustc/main.rs:111 | different codes are stored under different keys |
| Text.ParseI32 | introduce/lesson02/rustc/main.rs:94 | `parse::<i32>()` succeeds only with a value in the 32-bit range |
| Text.ParseI32OfIntToString | introduce/lesson02/rustc/main.rs:94 | every 32-bit integer is read back from its own rendering |
| Sequences.DedupLength | introduce/lesson01/calculate_elemts.py:20-25 | the deduplicated list is never longer than its input |
| Sequences.DedupSubsequence | introduce/lesson01/calculate_elemts.py:20-25 | the kept points occur in the input, in input order |
| Sequences.DedupMembers | introduce/lesson01/calculate_elemts.py:20-25 | every kept point is a point of the input |
| Sequences.DedupDistinct | introduce/lesson01/calculate_elemts.py:20-25 | no kept point is `==` to a later kept point |
| Sequences.DedupCovers | introduce/lesson03/lira_generator.py:27-34 | when every point equals itself, every input point equals some kept point |
| Sequences.DedupPrefixStable | introduce/lesson03/lira_generator.py:27-34 | appending input never changes what was already kept, so numbers already given are stable |
| Sequences.DedupOfDistinct | introduce/lesson01/calculate_elemts.py:20-25 | a list with no `==` pair is left unchanged |
| Sequences.DedupIdempotent | introduce/lesson01/calculate_elemts.py:39-42 | deduplicating an already deduplicated list changes nothing |
| Sequences.Numbered | introduce/lesson01/calculate_elemts.py:43 | `{i + 1: p for i, p in enumerate(d)}` has keys exactly 1..n, key k holding the k-th point |
| Sequences.FirstIndex | introduce/lesson01/calculate_elemts.py:46-50 | the key found holds a point equal to the argument and no smaller key does; None exactly when no value equals it |
| Sequences.FirstIndexIsSmallest | introduce/lesson01/calculate_elemts.py:46-50 | the first matching key in insertion order is the one returned |
| Sequences.FindKey | introduce/lesson03/lira_exporter.py:41-45 | the loop over `items()` of a 1-based numbering returns the first key whose value equals the argument, or None |
| Sequences.DedupIndexTotal | introduce/lesson03/lira_generator.py:27-44 | when every point equals itself, every input point gets a key from the numbering of its dedup |
| Sequences.FirstIndexOfKept | introduce/lesson03/lira_generator.py:40-44 | a kept point that equals itself gets its own key back |
| Sequences.Filter | introduce/lesson03/lira_exporter.py:48 | a filtered list is never longer than its input |
| Sequences.FilterSpec | introduce/lesson03/lira_exporter.py:48-50 | the comprehension keeps exactly the entries passing the test, in their original order |
| Sequences.FilterIdempotent | introduce/lesson03/lira_exporter.py:48-50 | filtering an already filtered list changes nothing |
| CalculateElements.DefaultAccuracyIsExact | introduce/lesson01/calculate_elemts.py:10-13 | with the default accuracy 0.0, 2-D `==` is exact equality of x and y |
| CalculateElements.ElementIndexes | introduce/lesson01/calculate_elemts.py:20-25 | `Element.get_indexes` returns its points with later duplicates dropped: at most as many, pairwise distinct, in input order |
| CalculateElements.ElementUniques | introduce/lesson01/calculate_elemts.py:37-38 | one `get_indexes` result per element, in element order |
| CalculateElements.ObjIndexes | introduce/lesson01/calculate_elemts.py:39-43 | the numbering has keys exactly 1..n, and no two of its points are `==` |
| CalculateElements.IndexFormat | introduce/lesson01/calculate_elemts.py:52-60 | one single-key dict `{i + 1: [...]}` per element, whose list has one entry per point of the element (duplicates included), each being `get_index` of that point |
| CalculateElements.Obj.constructor | introduce/lesson01/calculate_elemts.py:28-31 | a new `Obj` holds its elements and an empty cache |
| CalculateElements.Obj.GetIndexes | introduce/lesson01/calculate_elemts.py:33-44 | returns the numbering of the global dedup of the per-element dedups, caches it, and a second call returns the cached dict unchanged |
| CalculateElements.Obj.GetIndex | introduce/lesson01/calculate_elemts.py:46-50 | returns the smallest key whose point equals the argument, or None, and leaves the numbering cached |
| CalculateElements.Obj.IndexList | introduce/lesson01/calculate_elemts.py:56-58 | the list of one element holds `get_index` of each of its points, in order |
| CalculateElements.Obj.ConvertToIndexFormat | introduce/lesson01/calculate_elemts.py:52-60 | the result is the per-element index format of the current elements |
| CalculateElements.ExactUnique | introduce/lesson01/calculate_elemts.py:33-44 | when all points have accuracy 0, so do all the numbered points |
| CalculateElements.ExactCoveredInElement | introduce/lesson01/calculate_elemts.py:33-44 | with accuracy 0, every point has a kept point with its exact coordinates |
| CalculateElements.ExactIndexesResolved | introduce/lesson01/calculate_elemts.py:52-60 | with accuracy 0 every index in `convert_to_index_format` is a number, never None |
| CalculateElements.ToleranceExampleUnique | introduce/lesson01/calculate_elemts.py:33-44 | with accuracy 0.005, elements [(0,0)] and [(0.004,0), (0.008,0)] number only (0,0) |
| CalculateElements.ToleranceExampleIndexes | introduce/lesson01/calculate_elemts.py:46-50 | in that example (0,0) and (0.004,0) get key 1, and (0.008,0) gets None |
| CalculateElements.ToleranceMayLeaveIndexMissing | introduce/lesson01/calculate_elemts.py:52-60 | with a non-zero accuracy `convert_to_index_format` can produce None: the example gives [{1: [1]}, {2: [1, None]}] |
| CalculateElements.ToleranceFirstElement | introduce/lesson01/calculate_elemts.py:52-60 | the first element of the example converts to {1: [1]} |
| CalculateElements.ToleranceSecondElement | introduce/lesson01/calculate_elemts.py:52-60 | the second element of the example converts to {2: [1, None]} |
| GroupCodes.CornerCodesDistinct | introduce/lesson02/rustc/main.rs:57-82 | different axes or corners use different codes, so no field is read twice |
| GroupCodes.CodePointStore | introduce/lesson02/rustc/main.rs:111 | storing a value under a corner code changes exactly the coordinate that code names |
| GroupCodes.CodePointEmpty | introduce/lesson02/rustc/main.rs:34-40 | with no field collected every coordinate defaults to 0.0 |
| DxfParser.PointMap | introduce/lesson02/dxf_parser.py:14-31 | "8" maps to the layer and no other code does; a code maps to an axis exactly when it has two characters, the first 1, 2 or 3 and the second 0..3; the first digit picks x, y or z |
| DxfParser.Coords.Set | introduce/lesson02/dxf_parser.py:50 | after `coordinates[axis] = v`, axis a holds v and the other two axes hold what they held before |
| DxfParser.Coords.Count | introduce/lesson02/dxf_parser.py:51 | at most three coordinates are held, and three exactly when x, y and z are all set |
| DxfParser.PointScan | introduce/lesson02/dxf_parser.py:39-53 | the loop of `PointParser.parse`; PointScanReads, PointScanLayer, PointNeedsLayerLine and PointRunsOut state what it yields |
| DxfParser.LineScan | introduce/lesson02/dxf_parser.py:58-82 | the loop of `LineParser.parse`; LineScanReads and LineScanSharedLayer state what it yields |
| DxfParser.FaceScan | introduce/lesson02/dxf_parser.py:88-104 | the loop of `E3DFaceParser.parse`; FaceScanReads, FaceScanCorners and FaceCornerCount state what it yields |
| DxfParser.ScanBreaks | introduce/lesson02/dxf_parser.py:41-52 | a loop that returns an entity broke after a first line k that has a line after it, and the entity is built from the state after lines n..k |
| DxfParser.ScanFirstBreak | introduce/lesson02/dxf_parser.py:41-52 | conversely, when k is the first line after which the break test holds, the loop returns the entity built from the state after lines n..k |
| DxfParser.ScanRunsOut | introduce/lesson02/dxf_parser.py:41-43 | a loop whose break test never holds before the last line raises: IndexError on reading past the last line, or the exception an earlier line raised |
| DxfParser.LastRead | introduce/lesson02/dxf_parser.py:41-50 | the last line of a range whose code is selected, no later line of the range being selected; None exactly when no line of the range is |
| DxfParser.ParsePoint | introduce/lesson02/dxf_parser.py:39-53 | the loop of `PointParser.parse` gives what the scan from the line after the keyword gives |
| DxfParser.PointScanLayer | introduce/lesson02/dxf_parser.py:45-53 | a parsed point has the default accuracy and a LINE-type layer read from some code-8 value line after the start |
| DxfParser.PointNeedsLayerLine | introduce/lesson02/dxf_parser.py:40-53 | without a code-8 line after the keyword, parsing a point raises |
| DxfParser.PointRunsOut | introduce/lesson02/dxf_parser.py:41-43 | running out of lines before the point is complete reads past the end: IndexError |
| DxfParser.PointStepsCoords | introduce/lesson02/dxf_parser.py:41-50 | after the loop body has run on lines n..m-1, each of x, y and z holds `float()` of the value of the last of those lines with a code for that axis, or what it held before |
| DxfParser.PointScanReads | introduce/lesson02/dxf_parser.py:39-53 | a parsed point comes from a break at some line that has a line after it, and its x, y and z are `float()` of the values last given to codes 1k, 2k and 3k before the break |
| DxfParser.LineKey | introduce/lesson02/dxf_parser.py:66-75 | "8" is the only code that sets the layer of a line |
| DxfParser.LineKeyCodes | introduce/lesson02/dxf_parser.py:66-73 | exactly 10/20/30 go to the start and 11/21/31 to the end, as x, y and z |
| DxfParser.ParseLine | introduce/lesson02/dxf_parser.py:58-82 | the loop of `LineParser.parse` gives what the line scan from the line after the keyword gives |
| DxfParser.LineScanSharedLayer | introduce/lesson02/dxf_parser.py:74-82 | start, end and line share one LINE-type layer: the default "0" or one named by a code-8 value line |
| DxfParser.LineStepAxis | introduce/lesson02/dxf_parser.py:66-73 | one pass sets an axis of the start, or of the end, exactly when the code is that axis's code for that end, and leaves it otherwise |
| DxfParser.LineStepsStart | introduce/lesson02/dxf_parser.py:62-73 | after lines n..m-1, each axis of the start holds the value of the last code 10, 20 or 30 for it, or what it held before |
| DxfParser.LineStepsEnd | introduce/lesson02/dxf_parser.py:62-73 | after lines n..m-1, each axis of the end holds the value of the last code 11, 21 or 31 for it, or what it held before |
| DxfParser.LineScanReads | introduce/lesson02/dxf_parser.py:58-82 | a parsed line comes from a break at some line that has a line after it; each end's x, y and z are the values last given to its codes before the break |
| DxfParser.FindGroup | introduce/lesson02/dxf_parser.py:99 | where `setdefault` finds a key: the first group holding it, or past the end when no group holds it |
| DxfParser.SetGroup | introduce/lesson02/dxf_parser.py:99-100 | without a group for the key, a new group holding only the new axis and the current layer is appended at the end; otherwise the first group with the key gets the new axis and the current layer, and no other group changes |
| DxfParser.SetGroupKeys | introduce/lesson02/dxf_parser.py:99 | with distinct keys, the keys after `setdefault` are the old keys followed by the key when it is new; they stay distinct |
| DxfParser.Corners | introduce/lesson02/dxf_parser.py:104 | one corner per group, in the dict's order, with that group's x, y, z and layer and the default accuracy |
| DxfParser.ParseFace | introduce/lesson02/dxf_parser.py:88-104 | the loop of `E3DFaceParser.parse` gives what the face scan from the line after the keyword gives |
| DxfParser.FaceScanCorners | introduce/lesson02/dxf_parser.py:91-104 | a parsed face has four corners, unless the scan had no line to read; the face and every corner have E3DFACE-type layers |
| DxfParser.FaceCornerCount | introduce/lesson02/dxf_parser.py:101-104 | a face parsed from a keyword has four corners, or none when the keyword is the last line |
| DxfParser.FaceStepDistinct | introduce/lesson02/dxf_parser.py:94-100 | one pass keeps the keys distinct and every existing group at its position with its key |
| DxfParser.FaceStepKeys | introduce/lesson02/dxf_parser.py:94-100 | one pass adds the key of an axis code exactly when no group holds it yet |
| DxfParser.FaceStepsDistinct | introduce/lesson02/dxf_parser.py:91-100 | the same over lines n..m-1: the keys stay distinct and the existing groups keep their positions |
| DxfParser.FaceStepsKeys | introduce/lesson02/dxf_parser.py:91-100 | after lines n..m-1 the keys are the old keys followed by the second characters of the axis codes read, each once, in the order first read |
| DxfParser.FaceStepCoord | introduce/lesson02/dxf_parser.py:94-100 | one pass sets axis a of a group exactly when the code is that axis's code for the group's key; other groups keep their coordinates |
| DxfParser.FaceStepsCoords | introduce/lesson02/dxf_parser.py:91-100 | after lines n..m-1, axis a of each group holds the value of the last code for that axis and the group's key, or what it held before (nothing, for a new group) |
| DxfParser.FaceScanReads | introduce/lesson02/dxf_parser.py:88-104 | a parsed face comes from a break at some line that has a line after it; it has four corners, one per distinct corner digit in the order first read, each x, y and z being the value last given to its code before the break |
| DxfParser.StopFrom | introduce/lesson02/dxf_parser.py:133-139 | the first line from a position on where the loop breaks: no break before it, a break at it unless it is the end |
| DxfParser.TriggersBelowSpec | introduce/lesson02/dxf_parser.py:141-145 | the lines that run a parser are exactly the POINT, LINE and 3DFACE lines before the stop, in increasing order |
| DxfParser.CollectSize | introduce/lesson02/dxf_parser.py:141-145 | without an exception each trigger line appends one entity; with one, fewer are appended |
| DxfParser.EntityStore.constructor | introduce/lesson02/dxf_parser.py:109-113 | the shared store starts with three empty lists |
| DxfParser.EntityStore.Append | introduce/lesson02/dxf_parser.py:145 | appending adds the entity at the end of the list of its kind and changes nothing else |
| DxfParser.ParseEntity | introduce/lesson02/dxf_parser.py:141-144 | runs the parser `PARSER_MAP` names for the keyword line |
| DxfParser.DXFParser.constructor | introduce/lesson02/dxf_parser.py:107-126 | a parser over the given lines, sharing the class-level entity store |
| DxfParser.DXFParser.Parse | introduce/lesson02/dxf_parser.py:128-146 | the entities of the trigger lines are appended in line order after what the shared store already held; an exception leaves earlier appends in place and is returned |
| DxfParser.RunKeywordStep | introduce/lesson02/dxf_parser.py:141-145 | a keyword line whose parser succeeds appends its entity and the loop moves on |
| DxfParser.RunIsCollect | introduce/lesson02/dxf_parser.py:128-146 | the line loop is exactly running the parsers of the trigger lines in order, stopping at the first exception |
| DxfParser.RunFrom | introduce/lesson02/dxf_parser.py:131-145 | from any line before the stop, the rest of the loop completes the parses of the trigger lines |
| DxfParser.CollectErrorSticks | introduce/lesson02/dxf_parser.py:144 | once a parser has raised, no later trigger line changes the outcome |
| DxfParser.TriggersStep | introduce/lesson02/dxf_parser.py:141-143 | one more line adds its position to the triggers exactly when it is POINT, LINE or 3DFACE |
| DxfParser.CollectAppend | introduce/lesson02/dxf_parser.py:144-145 | one more trigger runs one more parser, unless an exception already ended the run |
| DxfParser.EntitiesSeenStep | introduce/lesson02/dxf_parser.py:133-135 | the ENTITIES flag becomes set at a line reading ENTITIES and stays set |
| DxfParser.TriggersExample | introduce/lesson02/dxf_parser.py:128-146 | a keyword before ENTITIES and one in a value position both trigger; an ENDSEC before ENTITIES does not stop; nothing after the ENDSEC that follows ENTITIES is parsed |
| DxfParser2.ParsersRaise | introduce/lesson02/dxf_parser2.py:29-64 | every parser calls `Point` without `layer` and so raises TypeError, whatever was collected |
| DxfParser2.NeverEmits | introduce/lesson02/dxf_parser2.py:94-112 | with no entity type pending the loop never runs a parser: it ends without exception and appends nothing |
| DxfParser2.DXFParser.constructor | introduce/lesson02/dxf_parser2.py:67-86 | a parser over the given lines, sharing the class-level entity store |
| DxfParser2.DXFParser.Parse | introduce/lesson02/dxf_parser2.py:88-113 | the shared store gets what the loop over the stripped lines produces, and a parser exception would be returned |
| DxfParser2.ParseLeavesEntities | introduce/lesson02/dxf_parser2.py:88-113 | whatever the lines, `parse` returns the shared lists unchanged and raises nothing |
| RustParser.ParsersAgree | introduce/lesson02/rustc/main.rs:34-82 | a line starts at the point record, and its two ends are the first two corners of the face record |
| RustParser.Flush | introduce/lesson02/rustc/main.rs:98-107 | code 0 prints at most one record |
| RustParser.FlushEmitsRecordTypes | introduce/lesson02/rustc/main.rs:98-107 | code 0 prints a record exactly when the pending type is POINT, LINE or 3DFACE |
| RustParser.PairsFromLines | introduce/lesson02/rustc/main.rs:92-96 | every pair is a code line followed by its value line, and the pairs use at most all the lines |
| RustParser.Emit | introduce/lesson02/rustc/main.rs:92-116 | what the `while let` loop prints for a list of pairs; EmitSnoc, EmitCode0, PendingNotFlushed and PointFlushedOnCode0 state it one pair at a time |
| RustParser.EmitSnoc | introduce/lesson02/rustc/main.rs:97-112 | one more pair prints, if its code is 0, the record of the type in force with the fields collected since the last code 0, and nothing otherwise |
| RustParser.SuffixState | introduce/lesson02/rustc/main.rs:108-111 | code 0 switches the type to the value line and clears the fields; any other code stores its value |
| RustParser.StoreOverrides | introduce/lesson02/rustc/main.rs:111 | a later value for a code overrides the earlier one, and other codes keep theirs |
| RustParser.PendingNotFlushed | introduce/lesson02/rustc/main.rs:92-116 | a POINT still pending at the end of the input is never printed |
| RustParser.PointFlushedOnCode0 | introduce/lesson02/rustc/main.rs:97-100 | the next code 0 prints the pending POINT, with 0.0 for absent coordinates |
| RustParser.UntrimmedTypeIgnored | introduce/lesson02/rustc/main.rs:108 | the type is taken from the untrimmed value line, so " POINT" prints nothing |
| RustParser.TrimmedCodeLine | introduce/lesson02/rustc/main.rs:94 | code lines are trimmed before they are read: " 10 " is code 10 |
| RustParser.NotACodeLine | introduce/lesson02/rustc/main.rs:94 | a line that is not an integer is no code |
| RustParser.ZeroCodeLine | introduce/lesson02/rustc/main.rs:94 | "0" is code 0 |
| RustParser.PairsExample | introduce/lesson02/rustc/main.rs:92-96 | a code line takes its value line, a non-integer line is skipped, and a code line at the end is dropped |
| RustParser.EmitCode0 | introduce/lesson02/rustc/main.rs:97-109 | a code-0 pair prints the pending record, and the rest starts afresh with the new type and no fields |
| RustParser.PrintPending | introduce/lesson02/rustc/main.rs:98-107 | the `if` chain of code 0 prints exactly what Flush specifies |
| RustParser.DXFParser.constructor | introduce/lesson02/rustc/main.rs:28-32 | the parser starts with an empty `point_map` |
| RustParser.DXFParser.Parse | introduce/lesson02/rustc/main.rs:84-117 | the `while let` loop prints exactly what Emit makes of the pairs it consumes, from an empty type and empty fields |
| FaceReader.LineIterator.constructor | introduce/lesson02/lesson_001.py:11 | the iterator starts at the first line |
| FaceReader.LineIterator.Next | introduce/lesson02/lesson_001.py:18 | `next()` returns the next line and advances, or raises StopIteration at the end |
| FaceReader.SectionStep | introduce/lesson02/lesson_001.py:17-24 | the section-header reads consume at least one line and stay within the file |
| FaceReader.MarkerStep | introduce/lesson02/lesson_001.py:27-29 | the marker reads consume at least one line and stay within the file |
| FaceReader.CornerStep | introduce/lesson02/lesson_001.py:33-39 | a corner read consumes exactly five lines |
| FaceReader.SectionPart | introduce/lesson02/lesson_001.py:17-24 | the SECTION test never moves backwards and stays within the file |
| FaceReader.MarkerPart | introduce/lesson02/lesson_001.py:27-32 | the marker test never moves backwards and stays within the file |
| FaceReader.CornerPart | introduce/lesson02/lesson_001.py:33-61 | the corner test never moves backwards and stays within the file |
| FaceReader.EntityPart | introduce/lesson02/lesson_001.py:26-61 | the in-section tests never move backwards and stay within the file |
| FaceReader.Iteration | introduce/lesson02/lesson_001.py:14-61 | every pass of the loop consumes at least one line, so the loop terminates |
| FaceReader.SectionPasses | introduce/lesson02/lesson_001.py:17-26 | after the SECTION test, the entity tests run only when the flag is set |
| FaceReader.RunStep | introduce/lesson02/lesson_001.py:14 | a pass that completes leaves the rest of the loop to run from its new state |
| FaceReader.RunFails | introduce/lesson02/lesson_001.py:14-61 | a pass that raises ends the whole loop with that exception |
| FaceReader.NextStripped | introduce/lesson02/lesson_001.py:18 | `next(iterator).strip()` returns the next stripped line, or StopIteration |
| FaceReader.SectionHeader | introduce/lesson02/lesson_001.py:17-24 | the iterator reads after SECTION agree with the section-header specification, position included |
| FaceReader.FaceMarker | introduce/lesson02/lesson_001.py:27-29 | the iterator reads after "0" agree with the marker specification, position included |
| FaceReader.NextValue | introduce/lesson02/lesson_001.py:34 | `float(next(iterator).strip())`: a value, or ValueError, or StopIteration |
| FaceReader.Skip | introduce/lesson02/lesson_001.py:35 | a skipped line advances the iterator by one, or raises StopIteration |
| FaceReader.NextCorner | introduce/lesson02/lesson_001.py:33-39 | the iterator reads of a corner agree with the corner specification, position included |
| FaceReader.EntityLine | introduce/lesson02/lesson_001.py:26-61 | the in-section part of the loop body agrees with its specification |
| FaceReader.LoopPass | introduce/lesson02/lesson_001.py:14-61 | one pass of the loop body agrees with Iteration and leaves the iterator where it says |
| FaceReader.FaceRun | introduce/lesson02/lesson_001.py:14-64 | the loop of `dxf_to_json` from a state; RunStep, RunFails, RunExtends, RunDone and NoSectionNoFaces state how it proceeds and ends |
| FaceReader.DxfToFaces | introduce/lesson02/lesson_001.py:5-64 | the loop and the final append give exactly the faces, or the exception, of the specification |
| FaceReader.IterationExtends | introduce/lesson02/lesson_001.py:27-39 | one pass only appends: faces already appended stay, and the open face only gains corners |
| FaceReader.RunExtends | introduce/lesson02/lesson_001.py:14-64 | faces appended at any point come first in the result, unchanged, and a face open then is in the result with all its corners so far |
| FaceReader.NoSectionNoFaces | introduce/lesson02/lesson_001.py:17-26 | outside an entities section and with no SECTION line left, the result is the faces so far plus the open one |
| FaceReader.NoSectionNoFacesAtAll | introduce/lesson02/lesson_001.py:17-26 | a file without a SECTION line gives no faces |
| FaceReader.SectionPass | introduce/lesson02/lesson_001.py:17-24 | SECTION, "2" and a type set the flag to "the type is ENTITIES" and consume three lines |
| FaceReader.FacePass | introduce/lesson02/lesson_001.py:27-32 | in the section, "0", "3DFACE" and two more lines close the open face and open a new one |
| FaceReader.OtherEntityPass | introduce/lesson02/lesson_001.py:27 | in the section, "0" followed by another type only consumes the two lines |
| FaceReader.CornerPass | introduce/lesson02/lesson_001.py:33-61 | in the section, a code 10..13 and its three values append one corner to the open face |
| FaceReader.RunDone | introduce/lesson02/lesson_001.py:63-64 | at the end of the lines the open face, if any, is appended last |
| FaceReader.FaceHead | introduce/lesson02/lesson_001.py:17-39 | an ENTITIES section whose first 3DFACE has the corner (1, 2, 3) leaves that face open with that corner |
| FaceReader.OneFace | introduce/lesson02/lesson_001.py:5-64 | a one-corner face gives [[(1, 2, 3)]] |
| FaceReader.CornerBeforeFace | introduce/lesson02/lesson_001.py:33-39 | a corner before any 3DFACE marker appends to None: AttributeError |
| FaceReader.CutCorner | introduce/lesson02/lesson_001.py:35 | a file ending in the middle of a corner raises StopIteration |
| FaceReader.BadCoordinate | introduce/lesson02/lesson_001.py:34 | a coordinate that is not a number raises ValueError |
| FaceReader.LineCornersJoinFace | introduce/lesson02/lesson_001.py:27-61 | the corners of a LINE after a face join that face: no corner limit and no entity-type check |
| FaceReader.LineCornersTail | introduce/lesson02/lesson_001.py:41-47 | the code-11 corner of the LINE is appended to the open face |
| FaceReader.TwoFaces | introduce/lesson02/lesson_001.py:27-32 | each 3DFACE marker closes the open face and opens a new one: two markers give two faces |
| FaceReader.OtherSectionIgnored | introduce/lesson02/lesson_001.py:21-26 | corners in a section other than ENTITIES are not read |
| PointIndex.LineEnds | introduce/lesson03/lira_generator.py:19-21 | the start and the end of each line, in line order: two points per line |
| PointIndex.CornersLength | introduce/lesson03/lira_generator.py:22-23 | all corners of all faces are listed |
| PointIndex.CornerAt | introduce/lesson03/lira_generator.py:22-23 | corner j of face k sits after the corners of all faces before k |
| PointIndex.CornerCountPrefix | introduce/lesson03/lira_generator.py:22-23 | the faces before k and face k have no more corners than all faces |
| PointIndex.AllPointsLayout | introduce/lesson03/lira_generator.py:15-25 | `all_points` has \|points\| + 2·\|lines\| + the face corners: the points first, line k's ends at \|points\| + 2k and + 2k + 1, then the corners |
| PointIndex.Unique | introduce/lesson03/lira_generator.py:27-34 | the representatives `unique_points` keeps: NumberingDistinct proves them pairwise not `==`, drawn from the list and no more of them than points; Sequences.DedupSubsequence and DedupPrefixStable give their order and stability |
| PointIndex.Numbering | introduce/lesson03/lira_generator.py:35-38 | `unique_points` has keys exactly 1..n, key k holding the k-th kept point |
| PointIndex.CollectAllPoints | introduce/lesson03/lira_generator.py:15-25 | the loops of `all_points` give the standalone points, the line ends and the face corners, in that order |
| PointIndex.NumberPoints | introduce/lesson03/lira_generator.py:27-38 | the loops of `unique_points` give the first-encounter numbering of the points |
| PointIndex.IndexOf | introduce/lesson03/lira_generator.py:40-44 | `get_index`: the smallest key whose point equals the argument, or None (Sequences.FirstIndex); IndexTotal proves every listed point with a non-negative accuracy gets a key in 1..n |
| PointIndex.NumberingDistinct | introduce/lesson03/lira_generator.py:27-38 | no two numbered points are `==`, each is a point of the list, keeping its own layer, and there are no more of them than points |
| PointIndex.IndexTotal | introduce/lesson03/lira_generator.py:40-44 | with non-negative accuracies every point of `all_points` gets a key in 1..n |
| PointIndex.DefaultPointsTolerant | introduce/lesson02/entities.py:62 | points with the default accuracy all equal themselves |
| PointIndex.IndexText | introduce/lesson03/lira_generator.py:49 | `str()` of an index or of None is one non-empty word without newline |
| PointIndex.IndexTextInjective | introduce/lesson03/lira_generator.py:49 | different indexes, None included, are written differently |
| PointIndex.SpaceJoinInjective | introduce/lesson03/lira_generator.py:49 | two words joined by a space split back apart when the first has no space |
| PointIndex.LineRecord | introduce/lesson03/lira_exporter.py:66 | the text `5 {layer} {start} {end}/` and its newline; LineRecordInjective proves the layer and both indexes can be read back, and LineRecordIsTextLine that it is one text line |
| PointIndex.LineRecordInjective | introduce/lesson03/lira_exporter.py:66 | a line record gives back its layer and both indexes when the layer text has no space |
| PointIndex.CollectPointRecords | introduce/lesson03/lira_generator.py:56-57 | the loop over `unique_points.values()` gives the point block of the numbered points in key order |
| PointIndex.PointRecord | introduce/lesson03/lira_generator.py:57 | the text `{x} {y} {z}/` and its newline; PointRecordInjective proves the three coordinates can be read back when `str(float)` is one-to-one and gives words |
| PointIndex.PointRecordInjective | introduce/lesson03/lira_generator.py:57 | a point record gives back the three coordinates when `str(float)` is one-to-one and gives words |
| PointIndex.NewlineAt | introduce/lesson03/lira_generator.py:57 | the first newline of a text, or its end |
| PointIndex.SplitLinesCons | introduce/lesson03/lira_generator.py:49 | a leading text line is cut off as the first line |
| PointIndex.SplitLinesFlatten | introduce/lesson03/lira_generator.py:47-50 | records that are text lines read back one per line from their concatenation |
| PointIndex.RecordIsTextLine | introduce/lesson03/lira_generator.py:57 | a record `body/` plus newline, whose body has no newline, is one text line |
| PointIndex.LineRecordIsTextLine | introduce/lesson03/lira_generator.py:49 | a line record is one text line when its layer text has no newline |
| PointIndex.PointBlockLines | introduce/lesson03/lira_generator.py:56-57 | the point block has one line per numbered point, in key order |
| LiraGenerator.Lira.constructor | introduce/lesson03/lira_generator.py:9-13 | a new `Lira` holds its lists and no cached property |
| LiraGenerator.Lira.AllPoints | introduce/lesson03/lira_generator.py:15-25 | returns and caches `all_points` of the current lists |
| LiraGenerator.Lira.UniquePoints | introduce/lesson03/lira_generator.py:27-38 | returns and caches the first-encounter numbering of `all_points` |
| LiraGenerator.Lira.GetIndex | introduce/lesson03/lira_generator.py:40-44 | returns the smallest key whose point equals the argument, or None |
| LiraGenerator.Lira.ConvertLine | introduce/lesson03/lira_generator.py:49 | the record of one line: layer 1, then the indexes of its start and end |
| LiraGenerator.Lira.GetConvertedLines | introduce/lesson03/lira_generator.py:46-50 | the records of all lines, concatenated in line order |
| LiraGenerator.Lira.WriteToFile | introduce/lesson03/lira_generator.py:52-58 | the two blocks substituted into the template: the line records, and one point record per numbered point in key order |
| LiraGenerator.ConvertedLinesRead | introduce/lesson03/lira_generator.py:46-50 | the line block reads back one record per line, in line order |
| LiraGenerator.LineIndexesResolved | introduce/lesson03/lira_generator.py:40-49 | when no point has a negative accuracy, both ends of every line are numbered: no record holds None |
| LiraExporter.ListingExists | introduce/lesson03/lira_exporter.py:57 | every set of layers can be listed, each layer exactly once |
| LiraExporter.LayerMapNumbering | introduce/lesson03/lira_exporter.py:58 | a listing is numbered one-to-one onto 1..k, in list order |
| LiraExporter.LayerKnown | introduce/lesson03/lira_exporter.py:55-61 | a layer has a number exactly when some numbered point carries it |
| LiraExporter.ConvertedLines | introduce/lesson03/lira_exporter.py:63-71 | the line block of `get_converted_lines`; ConvertedLinesKeyError proves it raises KeyError exactly when a line's layer has no number, and ConvertedLinesRead that it otherwise reads back one record per line, in order |
| LiraExporter.ConvertedLinesStep | introduce/lesson03/lira_exporter.py:65-70 | one more line with a numbered layer adds its record at the end |
| LiraExporter.ConvertedLinesMissing | introduce/lesson03/lira_exporter.py:69 | a line whose layer has no number makes the whole conversion a KeyError |
| LiraExporter.LayerItems | introduce/lesson03/lira_exporter.py:78-79 | the loop over `layers.items()` gives the layer records in the dict's order |
| LiraExporter.LiraExporter.constructor | introduce/lesson03/lira_exporter.py:10-14 | a new exporter holds its lists and no cached property |
| LiraExporter.LiraExporter.AllPoints | introduce/lesson03/lira_exporter.py:16-26 | returns and caches `all_points` of the current lists |
| LiraExporter.LiraExporter.UniquePoints | introduce/lesson03/lira_exporter.py:28-39 | returns and caches the first-encounter numbering of `all_points` |
| LiraExporter.LiraExporter.GetIndex | introduce/lesson03/lira_exporter.py:41-45 | returns the smallest key whose point equals the argument, or None |
| LiraExporter.LiraExporter.FilterByLayerTemplate | introduce/lesson03/lira_exporter.py:47-53 | keeps exactly the entries with a valid layer, in order, and drops all three caches |
| LiraExporter.LiraExporter.Layers | introduce/lesson03/lira_exporter.py:55-58 | lists each layer of the numbered points once and numbers the list from 1; a cached value is returned unchanged |
| LiraExporter.LiraExporter.GetLayerIndex | introduce/lesson03/lira_exporter.py:60-61 | the layer's number, or KeyError when no numbered point has that layer |
| LiraExporter.LiraExporter.ConvertLine | introduce/lesson03/lira_exporter.py:66-70 | the record of one line, or KeyError when its layer has no number |
| LiraExporter.LiraExporter.GetConvertedLines | introduce/lesson03/lira_exporter.py:63-71 | the records of all lines in order, or the KeyError of a line whose layer has no number |
| LiraExporter.LiraExporter.LayerBlock | introduce/lesson03/lira_exporter.py:77-79 | one layer record per layer, in the dict's order |
| LiraExporter.LiraExporter.PointBlock | introduce/lesson03/lira_exporter.py:75-81 | one point record per numbered point, in key order |
| LiraExporter.LiraExporter.Export | introduce/lesson03/lira_exporter.py:73-82 | the point, line and layer blocks, or the KeyError of the line records |
| LiraExporter.FilteredValid | introduce/lesson03/lira_exporter.py:48-50 | after filtering, an entry remains exactly when it was there and its layer is valid |
| LiraExporter.FilterTwice | introduce/lesson03/lira_exporter.py:47-53 | filtering a second time keeps every entry |
| LiraExporter.LayerNumbersBijective | introduce/lesson03/lira_exporter.py:55-58 | `layers` numbers the layers of the numbered points one-to-one onto 1..k, whatever order the set yields |
| LiraExporter.ConvertedLinesKeyError | introduce/lesson03/lira_exporter.py:63-71 | `get_converted_lines` raises KeyError exactly when some line's layer is carried by no numbered point |
| LiraExporter.LineOnForeignPointsRaises | introduce/lesson03/lira_exporter.py:28-71 | a line whose ends coincide with a standalone point of another layer is numbered through that point, so its own layer has no number: KeyError |
| LiraExporter.ConvertedLinesRead | introduce/lesson03/lira_exporter.py:63-71 | the line block reads back one record per line, in line order |
| LiraExporter.LayerRecord | introduce/lesson03/lira_exporter.py:79 | the text `{i} S0 3.06E6 {unique_name}/` and its newline; LayerRecordInjective proves the number and the name can be read back |
| LiraExporter.LayerRecordInjective | introduce/lesson03/lira_exporter.py:79 | a layer record gives back the layer number and the `unique_name` |
| LiraExporter.LayerBlockRead | introduce/lesson03/lira_exporter.py:78-79 | when no `unique_name` holds a newline, the layer block reads back one record per layer, in order |
| DofCalc.MathDist | introduce/lesson03/dof_calc.py:6 | `math.dist`: ValueError for tuples of different lengths, TypeError for a non-number; DistanceAsWrittenRaises proves the TypeError for `to_tuple()` and DistanceIsMathDist the value on coordinate tuples |
| DofCalc.DistanceAsWrittenRaises | introduce/lesson03/dof_calc.py:5-6 | `math.dist` on `to_tuple()`, which ends with the Layer, always raises TypeError |
| DofCalc.IsDofPointAsWrittenRaises | introduce/lesson03/dof_calc.py:9-13 | `is_dof_point` as written raises TypeError, whatever the points |
| DofCalc.DistanceIsMathDist | introduce/lesson03/dof_calc.py:5-6 | the corrected distance is what `math.dist` gives on the coordinate tuples |
| DofCalc.Distance | introduce/lesson03/dof_calc.py:5-6 | `distance` as intended: the distance of the coordinates; DistanceIsMathDist proves it is what `math.dist` gives on the coordinate tuples |
| DofCalc.IsDofPoint | introduce/lesson03/dof_calc.py:9-13 | `is_dof_point` as intended: start–end equals start–P plus end–P, compared exactly; EndsAreDofPoints proves both ends of the dof line pass |
| DofCalc.EndsAreDofPoints | introduce/lesson03/dof_calc.py:9-13 | with a symmetric distance that is zero from a point to itself, as `math.dist` is, both ends of the dof line lie on it |
| DofCalc.DofRun | introduce/lesson03/dof_calc.py:16-25 | `get_dof_points_from_lines_by_dof_line` on values; DofRunAsWritten and DofRunIntended give its result with the written and the corrected test, and DofPointsShape the points it selects |
| DofCalc.ByDofLine | introduce/lesson03/dof_calc.py:16-25 | the loop gives the per-line picks, start before end, in line order; the first exception ends it |
| DofCalc.DofRunAsWritten | introduce/lesson03/dof_calc.py:16-25 | as written, no lines give []; otherwise IndexError when the dof line's name has no H number, TypeError when it has one |
| DofCalc.DofRunIntended | introduce/lesson03/dof_calc.py:16-25 | with the corrected distance, IndexError exactly when there are lines and the name makes no POINT layer; otherwise the selected ends of all lines, concatenated in line order |
| DofCalc.SelectionsLength | introduce/lesson03/dof_calc.py:19-24 | at most two points per line are emitted |
| DofCalc.DofPointsShape | introduce/lesson03/dof_calc.py:16-25 | at most 2·\|lines\| points, each a copy of a line end lying on the dof line, in a fresh POINT layer named after the dof line, with the default accuracy |
| DofCalc.ByDofLines | introduce/lesson03/dof_calc.py:28-32 | the loop over the dof lines gives the specification's result |
| DofCalc.DofRunsConcat | introduce/lesson03/dof_calc.py:28-32 | when no dof line raises, the result is the per-dof-line results concatenated in dof-line order |
| DofCalc.DofRunsFailsOnLayer | introduce/lesson03/dof_calc.py:20 | a dof line whose name makes no POINT layer makes the whole result an IndexError, when there are lines and no earlier dof line raised |

## Left out

- File reading is left out: `DXFParser.__init__` in both Python parsers, `File`/`BufReader` in `main.rs`, and `open` in `lesson_001.py`. A drawing is the sequence of its lines. Rust I/O errors (`line?`) are therefore not modelled.
- File writing is left out: `export`, `write_to_file`, the JSON dump of `lesson_001.py` and `println!`.
  - The methods return the text blocks or the records instead.
  - The `TEMPLATE` text (`introduce/lesson03/consts.py`) is not part of this model; only the blocks substituted into it are.
  - The `print` calls in `dxf_parser2.py` and in `print_indexes` are output only and are not modelled.
- Text↔float conversion and the numeric value of `math.dist`/`sqrt` are left out. Conversion (`float()`, `str(float)`, `str::parse::<f64>`) is a function parameter, and IEEE rounding is not modelled. The one conversion that matters for the layer names, a single digit to a float to text, is written out as "d.0".
- `math.dist` on two all-number tuples of equal length is a parameter; only its errors (TypeError, ValueError) are modelled.
- Python hash values are not modelled. Set iteration order is not modelled either: `layers` takes any listing of the layer set (`:|`), and the properties hold for every order.
- `x in list` also accepts an element that is the very same object before calling `__eq__`. The model uses `__eq__` alone. The two differ only for a point that is not `==` to itself: one whose accuracy is negative, or one with a NaN or infinite coordinate (`abs(inf - inf)` is NaN). Coordinates here are `real`, so only the first case can arise in the model.
- PointIndex.IndexTotal holds only because coordinates are `real`: `float()` also yields NaN and ±inf, and a point with such a coordinate is not `==` to itself, so `get_index` returns None for it.
- PointIndex.DefaultPointsTolerant: a point with the default accuracy but a NaN or infinite coordinate is not `==` to itself in Python; the model cannot express such a point.
- LiraGenerator.LineIndexesResolved: for the same reason, a line with a NaN or infinite end coordinate gets the record `None` in Python; the model's number parameter yields only reals.
- Text.IsDigit accepts the ASCII digits 0-9 only. Python's `\d` on a `str` pattern matches every Unicode decimal digit (category Nd), so a name such as "B１２ H３４" (fullwidth digits) is a valid LINE layer in the source and an invalid one in the model.
- Entities.DigitAsFloat: for the same reason it renders ASCII digits only; Python's `str(float("３"))` is "3.0", which the model does not produce.
- `to_tuple`, `to_dict` and `__str__` are left out, except where `to_tuple` feeds `math.dist`. They only render entities for printing and JSON.
- RustParser.DXFParser.Parse: the `point_map` field is never read by the program; the model keeps it empty.
- LiraGenerator.Lira: the `points`, `lines` and `e3d_faces` fields are constants, because nothing in `lira_generator.py` reassigns them.
- FaceReader.DxfToFaces: "as many faces as 3DFACE markers in the section" is shown by FacePass, RunDone and the examples (OneFace, TwoFaces). It is not stated as one lemma over all inputs.
- DxfParser.DXFParser.Parse: the store is shared between parser objects, as the class-level dict is. Python's aliasing of that dict to the returned value is modelled as returning the store itself.
- `hw1.py`, `hw.py` and the `__main__` blocks are driver scripts. They only do file and JSON I/O and printing.

## Findings

| source | as written | input that shows it | evidently intended | confidence | as-written member | corrected member |
|---|---|---|---|---|---|---|
| introduce/lesson03/dof_calc.py:5-6 | `distance` passes `to_tuple()`, which ends with the point's Layer, to `math.dist`, which takes only numbers. Every `is_dof_point` therefore raises TypeError, and so does every non-empty run of `get_dof_points_from_lines_by_dof_line` whose POINT layer constructs | any non-empty list of lines with a dof line on layer "H1" | `math.dist` over the three coordinates, so that `is_dof_point` tests "start–P plus P–end equals start–end" | not executed | DofCalc.DofRunAsWritten | DofCalc.DofRunIntended |
