/**
 * The two regular expressions the layer decoder uses, hand-coded over character
 * sequences:
 *   `B\s*(\d+)\s*H\s*(\d+)`  (searched for anywhere; only "is there a match" matters)
 *   `H\s*(\d+)`              (only the first capture of `findall` is used)
 * Each is given twice: declaratively, as "these index ranges of the text have
 * these character classes", and as the greedy left-to-right scan a regex engine
 * performs. The lemmas show the two agree. The classes `\s*`, `\d+`, 'B' and 'H'
 * are pairwise disjoint, so the greedy scan never needs to backtrack.
 */
module Patterns {
  import opened Wrappers
  import opened Text

  /** s[a..b] is a (possibly empty) run of `\s`. */
  ghost predicate SpaceRun(s: string, a: int, b: int) {
    0 <= a <= b <= |s| && forall t :: a <= t < b ==> IsPySpace(s[t])
  }

  /** s[a..b] is a non-empty run of `\d`. */
  ghost predicate DigitRun(s: string, a: int, b: int) {
    0 <= a < b <= |s| && forall t :: a <= t < b ==> IsDigit(s[t])
  }

  /** `B\s*(\d+)\s*H\s*(\d+)` matches s[i..n] with groups s[j..k] and s[m..n]. */
  ghost predicate BHMatch(s: string, i: int, j: int, k: int, l: int, m: int, n: int) {
    && 0 <= i < |s| && s[i] == 'B'
    && SpaceRun(s, i + 1, j) && DigitRun(s, j, k) && SpaceRun(s, k, l)
    && l < |s| && s[l] == 'H'
    && SpaceRun(s, l + 1, m) && DigitRun(s, m, n)
  }

  ghost predicate ContainsBH(s: string) {
    exists i, j, k, l, m, n :: BHMatch(s, i, j, k, l, m, n)
  }

  /** `H\s*(\d+)` matches s[i..n] with group s[m..n]. */
  ghost predicate HMatch(s: string, i: int, m: int, n: int) {
    0 <= i < |s| && s[i] == 'H' && SpaceRun(s, i + 1, m) && DigitRun(s, m, n)
  }

  ghost predicate ContainsH(s: string) {
    exists i, m, n :: HMatch(s, i, m, n)
  }

  /** The end of the longest run starting at `a` whose characters satisfy `p`. */
  function SkipWhile(s: string, a: nat, p: char -> bool): (b: nat)
    requires a <= |s|
    ensures a <= b <= |s|
    ensures forall t :: a <= t < b ==> p(s[t])
    ensures b < |s| ==> !p(s[b])
    decreases |s| - a
  {
    if a < |s| && p(s[a]) then SkipWhile(s, a + 1, p) else a
  }

  /** A maximal run ends where SkipWhile says. */
  lemma SkipWhileUnique(s: string, a: nat, b: nat, p: char -> bool)
    requires a <= b <= |s|
    requires forall t :: a <= t < b ==> p(s[t])
    requires b < |s| ==> !p(s[b])
    ensures SkipWhile(s, a, p) == b
  {
  }

  /** The greedy attempt to match `B\s*(\d+)\s*H\s*(\d+)` starting at position i. */
  predicate BHAt(s: string, i: nat) {
    && i < |s| && s[i] == 'B'
    && var j := SkipWhile(s, i + 1, IsPySpace);
    && var k := SkipWhile(s, j, IsDigit);
    && j < k
    && var l := SkipWhile(s, k, IsPySpace);
    && l < |s| && s[l] == 'H'
    && var m := SkipWhile(s, l + 1, IsPySpace);
    && m < |s| && IsDigit(s[m])
  }

  /** Whether the greedy attempt succeeds at some position from `from` on. */
  predicate SearchBH(s: string, from: nat)
    decreases |s| - from
  {
    from < |s| && (BHAt(s, from) || SearchBH(s, from + 1))
  }

  /** `bool(re.findall(r"B\s*(\d+)\s*H\s*(\d+)", s))`. */
  predicate HasLayerCode(s: string) {
    SearchBH(s, 0)
  }

  /** Without a 'B' there is no B/H code. */
  lemma {:induction false} NoBNoSearch(s: string, from: nat)
    requires 'B' !in s
    ensures !SearchBH(s, from)
    decreases |s| - from
  {
    if from < |s| {
      assert s[from] in s;
      NoBNoSearch(s, from + 1);
    }
  }

  lemma {:induction false} SearchBHFinds(s: string, from: nat)
    requires SearchBH(s, from)
    ensures exists i :: from <= i < |s| && BHAt(s, i)
    decreases |s| - from
  {
    if !BHAt(s, from) {
      SearchBHFinds(s, from + 1);
    }
  }

  lemma {:induction false} SearchBHReaches(s: string, from: nat, i: nat)
    requires from <= i < |s| && BHAt(s, i)
    ensures SearchBH(s, from)
    decreases i - from
  {
    if from < i {
      SearchBHReaches(s, from + 1, i);
    }
  }

  /** A successful greedy attempt is a match. */
  lemma BHAtIsMatch(s: string, i: nat)
    requires BHAt(s, i)
    ensures ContainsBH(s)
  {
    var j := SkipWhile(s, i + 1, IsPySpace);
    var k := SkipWhile(s, j, IsDigit);
    var l := SkipWhile(s, k, IsPySpace);
    var m := SkipWhile(s, l + 1, IsPySpace);
    assert BHMatch(s, i, j, k, l, m, m + 1);
  }

  /** Any match makes the greedy attempt at its start position succeed. */
  lemma MatchIsBHAt(s: string, i: int, j: int, k: int, l: int, m: int, n: int)
    requires BHMatch(s, i, j, k, l, m, n)
    ensures BHAt(s, i)
  {
    SkipWhileUnique(s, i + 1, j, IsPySpace);
    SkipWhileUnique(s, j, k, IsDigit);
    SkipWhileUnique(s, k, l, IsPySpace);
    SkipWhileUnique(s, l + 1, m, IsPySpace);
  }

  /** The scanner finds the pattern exactly when the text contains a match of it. */
  lemma HasLayerCodeCorrect(s: string)
    ensures HasLayerCode(s) <==> ContainsBH(s)
  {
    if HasLayerCode(s) {
      SearchBHFinds(s, 0);
      var i :| 0 <= i < |s| && BHAt(s, i);
      BHAtIsMatch(s, i);
    }
    if ContainsBH(s) {
      var i, j, k, l, m, n :| BHMatch(s, i, j, k, l, m, n);
      MatchIsBHAt(s, i, j, k, l, m, n);
      SearchBHReaches(s, 0, i);
    }
  }

  /** The greedy attempt to match `H\s*(\d+)` at position i. */
  predicate HAt(s: string, i: nat) {
    && i < |s| && s[i] == 'H'
    && var m := SkipWhile(s, i + 1, IsPySpace);
    && m < |s| && IsDigit(s[m])
  }

  /** The capture of the greedy match at i: the whole digit run after the spaces. */
  function HCapture(s: string, i: nat): (d: string)
    requires HAt(s, i)
    ensures |d| > 0 && AllDigits(d)
  {
    var m := SkipWhile(s, i + 1, IsPySpace);
    s[m..SkipWhile(s, m, IsDigit)]
  }

  function FirstHFrom(s: string, from: nat): (r: Option<string>)
    ensures r.Some? ==> |r.value| > 0 && AllDigits(r.value)
    decreases |s| - from
  {
    if from >= |s| then None
    else if HAt(s, from) then Some(HCapture(s, from))
    else FirstHFrom(s, from + 1)
  }

  /** `re.findall(r"H\s*(\d+)", s)[0]`, None when the list would be empty. */
  function FirstHNumber(s: string): (r: Option<string>)
    ensures r.Some? ==> |r.value| > 0 && AllDigits(r.value)
  {
    FirstHFrom(s, 0)
  }

  lemma HAtIsMatch(s: string, i: nat)
    requires HAt(s, i)
    ensures var m := SkipWhile(s, i + 1, IsPySpace);
      HMatch(s, i, m, SkipWhile(s, m, IsDigit))
  {
  }

  lemma MatchIsHAt(s: string, i: int, m: int, n: int)
    requires HMatch(s, i, m, n)
    ensures HAt(s, i) && SkipWhile(s, i + 1, IsPySpace) == m
  {
    SkipWhileUnique(s, i + 1, m, IsPySpace);
  }

  lemma {:induction false} FirstHFromSpec(s: string, from: nat)
    ensures FirstHFrom(s, from).None? <==> forall i :: from <= i < |s| ==> !HAt(s, i)
    ensures FirstHFrom(s, from).Some? ==>
      exists i :: from <= i < |s| && HAt(s, i) && FirstHFrom(s, from).value == HCapture(s, i)
        && forall i' :: from <= i' < i ==> !HAt(s, i')
    decreases |s| - from
  {
    if from >= |s| {
    } else if HAt(s, from) {
      assert FirstHFrom(s, from).value == HCapture(s, from);
    } else {
      FirstHFromSpec(s, from + 1);
      assert FirstHFrom(s, from) == FirstHFrom(s, from + 1);
      if FirstHFrom(s, from + 1).Some? {
        var i :| from + 1 <= i < |s| && HAt(s, i) && FirstHFrom(s, from + 1).value == HCapture(s, i)
          && forall i' :: from + 1 <= i' < i ==> !HAt(s, i');
        assert forall i' :: from <= i' < i ==> !HAt(s, i');
      } else {
        assert forall i :: from <= i < |s| ==> !HAt(s, i);
      }
    }
  }

  /**
   * `findall(...)[0]` is the leftmost match, with the longest digit run: it is
   * None exactly when nothing matches, and otherwise the digits of a match that
   * starts before every other match and whose digit run cannot be extended.
   */
  lemma FirstHNumberSpec(s: string)
    ensures FirstHNumber(s).None? <==> !ContainsH(s)
    ensures FirstHNumber(s).Some? ==>
      exists i, m, n :: HMatch(s, i, m, n) && FirstHNumber(s).value == s[m..n]
        && (n == |s| || !IsDigit(s[n]))
        && forall i', m', n' :: 0 <= i' < i ==> !HMatch(s, i', m', n')
  {
    FirstHFromSpec(s, 0);
    if ContainsH(s) {
      var i, m, n :| HMatch(s, i, m, n);
      MatchIsHAt(s, i, m, n);
    }
    if FirstHNumber(s).Some? {
      FirstHNumberFound(s);
    }
  }

  /** The H number found is the capture of the leftmost match. */
  lemma FirstHNumberFound(s: string)
    requires FirstHNumber(s).Some?
    ensures exists i, m, n ::
      HMatch(s, i, m, n) && FirstHNumber(s).value == s[m..n]
      && (n == |s| || !IsDigit(s[n]))
      && forall i', m', n' :: 0 <= i' < i ==> !HMatch(s, i', m', n')
  {
    FirstHFromSpec(s, 0);
    var i :| 0 <= i < |s| && HAt(s, i) && FirstHNumber(s).value == HCapture(s, i)
      && forall i' :: 0 <= i' < i ==> !HAt(s, i');
    var m := SkipWhile(s, i + 1, IsPySpace);
    var n := SkipWhile(s, m, IsDigit);
    HAtIsMatch(s, i);
    forall i', m', n' | 0 <= i' < i ensures !HMatch(s, i', m', n') {
      if HMatch(s, i', m', n') {
        MatchIsHAt(s, i', m', n');
      }
    }
  }


  /** A name the layer pattern matches always has an `H<digits>` match too. */
  lemma LayerCodeHasH(s: string)
    requires HasLayerCode(s)
    ensures FirstHNumber(s).Some?
  {
    HasLayerCodeCorrect(s);
    var i, j, k, l, m, n :| BHMatch(s, i, j, k, l, m, n);
    assert HMatch(s, l, m, n);
    FirstHNumberSpec(s);
  }
}
