/**
 * The fixed-code records of the two group-code-0 readers (lesson02/dxf_parser2.py
 * and lesson02/rustc/main.rs): a corner n in 0..3 takes x, y and z from the codes
 * "1n", "2n" and "3n" of the collected field map, and an absent code reads as 0.0.
 */
module GroupCodes {
  import opened Text
  import opened Entities

  /** `data.get(code, 0.0)` / `*data.get(code).unwrap_or(&0.0)`. */
  function Lookup(data: map<string, real>, code: string): real {
    if code in data then data[code] else 0.0
  }

  /** The group code of `axis` (1 = x, 2 = y, 3 = z) for corner `n`: "10", "21", "33", ... */
  function CornerCode(axis: nat, n: nat): (code: string)
    requires 1 <= axis <= 3 && n <= 3
    ensures |code| == 2 && code[0] == DigitChar(axis) && code[1] == DigitChar(n)
  {
    [DigitChar(axis), DigitChar(n)]
  }

  /** Corner `n` of the record: the three coordinates of its codes. */
  function CodePoint(data: map<string, real>, n: nat): Xyz
    requires n <= 3
  {
    Xyz(Lookup(data, CornerCode(1, n)), Lookup(data, CornerCode(2, n)), Lookup(data, CornerCode(3, n)))
  }

  /** The codes of distinct axes or corners are distinct, so no field is read twice. */
  lemma CornerCodesDistinct(a: nat, n: nat, b: nat, m: nat)
    requires 1 <= a <= 3 && n <= 3 && 1 <= b <= 3 && m <= 3
    ensures CornerCode(a, n) == CornerCode(b, m) <==> a == b && n == m
  {
    if CornerCode(a, n) == CornerCode(b, m) {
      assert CornerCode(a, n)[0] == CornerCode(b, m)[0];
      assert CornerCode(a, n)[1] == CornerCode(b, m)[1];
    }
  }

  /** Storing a code changes exactly the coordinate that code names. */
  lemma CodePointStore(data: map<string, real>, n: nat, axis: nat, v: real)
    requires n <= 3 && 1 <= axis <= 3
    ensures var p := CodePoint(data[CornerCode(axis, n) := v], n);
      && p.x == (if axis == 1 then v else CodePoint(data, n).x)
      && p.y == (if axis == 2 then v else CodePoint(data, n).y)
      && p.z == (if axis == 3 then v else CodePoint(data, n).z)
  {
    CornerCodesDistinct(axis, n, 1, n);
    CornerCodesDistinct(axis, n, 2, n);
    CornerCodesDistinct(axis, n, 3, n);
  }

  /** With no field collected every corner is the origin. */
  lemma CodePointEmpty(n: nat)
    requires n <= 3
    ensures CodePoint(map[], n) == Xyz(0.0, 0.0, 0.0)
  {
  }
}
