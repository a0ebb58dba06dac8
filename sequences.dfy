/**
 * Generic list operations the modelled code performs with Python lists and dicts:
 * membership under a user-defined `==`, first-encounter deduplication, the
 * 1-based numbering `{i + 1: p for i, p in enumerate(ps)}`, the search for the
 * first key whose value matches, and order-preserving filtering.
 *
 * The relation `eq` stands for a class's `__eq__`; its first argument is the
 * receiver. Python's `x in lst` evaluates `item == x` for each list item, so the
 * element already in the list is the receiver.
 */
module Sequences {
  import opened Wrappers

  /** Python's `x in s` under the relation `eq`. */
  predicate Member<T>(s: seq<T>, x: T, eq: (T, T) -> bool) {
    exists j :: 0 <= j < |s| && eq(s[j], x)
  }

  /** The loop `for p in s: if p not in r: r.append(p)`. */
  function Dedup<T>(s: seq<T>, eq: (T, T) -> bool): seq<T> {
    if s == [] then []
    else
      var d := Dedup(s[..|s| - 1], eq);
      if Member(d, s[|s| - 1], eq) then d else d + [s[|s| - 1]]
  }

  /** No element of `s` equals (as receiver) a later one. */
  ghost predicate Distinct<T>(s: seq<T>, eq: (T, T) -> bool) {
    forall i, j :: 0 <= i < j < |s| ==> !eq(s[i], s[j])
  }

  ghost predicate Reflexive<T>(s: seq<T>, eq: (T, T) -> bool) {
    forall k :: 0 <= k < |s| ==> eq(s[k], s[k])
  }

  /** `f` lists, in increasing order, the positions in `b` that `a` was taken from. */
  ghost predicate SubsequenceVia<T>(a: seq<T>, b: seq<T>, f: seq<nat>) {
    && |f| == |a|
    && (forall k :: 0 <= k < |f| ==> f[k] < |b| && a[k] == b[f[k]])
    && (forall k, l :: 0 <= k < l < |f| ==> f[k] < f[l])
  }

  ghost predicate IsSubsequence<T>(a: seq<T>, b: seq<T>) {
    exists f :: SubsequenceVia(a, b, f)
  }

  lemma SubsequenceExtend<T>(a: seq<T>, b: seq<T>, f: seq<nat>, x: T, keep: bool)
    requires SubsequenceVia(a, b, f)
    ensures keep ==> SubsequenceVia(a + [x], b + [x], f + [|b|])
    ensures !keep ==> SubsequenceVia(a, b + [x], f)
  {
  }

  /** The deduplicated list is never longer than the input. */
  lemma {:induction false} DedupLength<T>(s: seq<T>, eq: (T, T) -> bool)
    ensures |Dedup(s, eq)| <= |s|
  {
    if s != [] {
      DedupLength(s[..|s| - 1], eq);
    }
  }

  /** The kept elements appear in the input, in input order. */
  lemma {:induction false} DedupSubsequence<T>(s: seq<T>, eq: (T, T) -> bool)
    ensures IsSubsequence(Dedup(s, eq), s)
  {
    if s == [] {
      assert SubsequenceVia<T>([], [], []);
    } else {
      var init := s[..|s| - 1];
      DedupSubsequence(init, eq);
      var f :| SubsequenceVia(Dedup(init, eq), init, f);
      assert s == init + [s[|s| - 1]];
      var keep := !Member(Dedup(init, eq), s[|s| - 1], eq);
      SubsequenceExtend(Dedup(init, eq), init, f, s[|s| - 1], keep);
    }
  }

  lemma SubsequenceMembers<T>(a: seq<T>, b: seq<T>)
    requires IsSubsequence(a, b)
    ensures forall k :: 0 <= k < |a| ==> a[k] in b
  {
    var f :| SubsequenceVia(a, b, f);
    forall k | 0 <= k < |a| ensures a[k] in b {
      assert a[k] == b[f[k]];
    }
  }

  /** Every kept element is an element of the input. */
  lemma DedupMembers<T>(s: seq<T>, eq: (T, T) -> bool)
    ensures forall k :: 0 <= k < |Dedup(s, eq)| ==> Dedup(s, eq)[k] in s
  {
    DedupSubsequence(s, eq);
    SubsequenceMembers(Dedup(s, eq), s);
  }

  /** No kept element equals a later kept one: the values of the numbering are pairwise distinct. */
  lemma {:induction false} DedupDistinct<T>(s: seq<T>, eq: (T, T) -> bool)
    ensures Distinct(Dedup(s, eq), eq)
  {
    if s != [] {
      DedupDistinct(s[..|s| - 1], eq);
    }
  }

  /** With a reflexive `==`, every input element equals some kept element. */
  lemma {:induction false} DedupCovers<T>(s: seq<T>, eq: (T, T) -> bool)
    requires Reflexive(s, eq)
    ensures forall k :: 0 <= k < |s| ==> Member(Dedup(s, eq), s[k], eq)
  {
    if s != [] {
      var init := s[..|s| - 1];
      var d := Dedup(init, eq);
      assert Reflexive(init, eq) by {
        forall k | 0 <= k < |init| ensures eq(init[k], init[k]) {
          assert init[k] == s[k];
        }
      }
      DedupCovers(init, eq);
      forall k | 0 <= k < |s| ensures Member(Dedup(s, eq), s[k], eq) {
        if k < |s| - 1 {
          assert s[k] == init[k];
          var j :| 0 <= j < |d| && eq(d[j], init[k]);
          assert Dedup(s, eq)[j] == d[j];
        } else if !Member(d, s[k], eq) {
          assert Dedup(s, eq)[|d|] == s[k];
        }
      }
    }
  }

  /** Adding input later never changes what was already kept: indexes are stable. */
  lemma {:induction false} DedupPrefixStable<T>(s: seq<T>, t: seq<T>, eq: (T, T) -> bool)
    ensures |Dedup(s, eq)| <= |Dedup(s + t, eq)|
    ensures Dedup(s + t, eq)[..|Dedup(s, eq)|] == Dedup(s, eq)
    decreases |t|
  {
    if t != [] {
      var u := s + t[..|t| - 1];
      assert (s + t)[..|s + t| - 1] == u;
      assert u == s + t[..|t| - 1];
      DedupPrefixStable(s, t[..|t| - 1], eq);
    } else {
      assert s + t == s;
    }
  }

  /** A list with no equal pair is left unchanged. */
  lemma {:induction false} DedupOfDistinct<T>(s: seq<T>, eq: (T, T) -> bool)
    requires Distinct(s, eq)
    ensures Dedup(s, eq) == s
  {
    if s != [] {
      var init := s[..|s| - 1];
      assert Distinct(init, eq);
      DedupOfDistinct(init, eq);
      assert init + [s[|s| - 1]] == s;
    }
  }

  /** Deduplicating twice is deduplicating once. */
  lemma DedupIdempotent<T>(s: seq<T>, eq: (T, T) -> bool)
    ensures Dedup(Dedup(s, eq), eq) == Dedup(s, eq)
  {
    DedupDistinct(s, eq);
    DedupOfDistinct(Dedup(s, eq), eq);
  }

  /** Deduplicating a prefix first does not change the deduplication of the whole. */
  lemma {:induction false} DedupAbsorb<T>(s: seq<T>, t: seq<T>, eq: (T, T) -> bool)
    ensures Dedup(Dedup(s, eq) + t, eq) == Dedup(s + t, eq)
    decreases |t|
  {
    if t == [] {
      assert Dedup(s, eq) + t == Dedup(s, eq) && s + t == s;
      DedupIdempotent(s, eq);
    } else {
      var init := t[..|t| - 1];
      DedupAbsorb(s, init, eq);
      assert (Dedup(s, eq) + t)[..|Dedup(s, eq) + t| - 1] == Dedup(s, eq) + init;
      assert (s + t)[..|s + t| - 1] == s + init;
    }
  }

  /** `DedupAbsorb` with the prefix split in two. */
  lemma DedupAbsorbSplit<T>(s: seq<T>, h: seq<T>, t: seq<T>, eq: (T, T) -> bool)
    ensures Dedup(Dedup(s + h, eq) + t, eq) == Dedup(s + (h + t), eq)
  {
    var u := s + h;
    assert u + t == s + (h + t);
    DedupAbsorb(u, t, eq);
  }

  /** `{i + 1: p for i, p in enumerate(d)}`. */
  function Numbered<T>(d: seq<T>): (m: map<int, T>)
    ensures forall i :: i in m <==> 1 <= i <= |d|
    ensures forall i :: 1 <= i <= |d| ==> m[i] == d[i - 1]
  {
    if d == [] then map[] else Numbered(d[..|d| - 1])[|d| := d[|d| - 1]]
  }

  /**
   * `for index, p in numbered.items(): if p == x: return index` over a numbering:
   * the smallest 1-based key whose value equals `x`, or None.
   */
  function FirstIndex<T>(d: seq<T>, x: T, eq: (T, T) -> bool): (r: Option<nat>)
    ensures r.Some? ==> 1 <= r.value <= |d| && eq(d[r.value - 1], x)
    ensures r.Some? ==> forall j :: 0 <= j < r.value - 1 ==> !eq(d[j], x)
    ensures r.None? <==> !Member(d, x, eq)
  {
    if d == [] then None
    else if eq(d[0], x) then Some(1)
    else
      match FirstIndex(d[1..], x, eq)
      case None => None
      case Some(k) => Some(k + 1)
  }

  /** A position whose element matches and no earlier one does is the one `FirstIndex` gives. */
  lemma FirstIndexIsSmallest<T>(d: seq<T>, x: T, eq: (T, T) -> bool, k: nat)
    requires 1 <= k <= |d| && eq(d[k - 1], x)
    requires forall j :: 0 <= j < k - 1 ==> !eq(d[j], x)
    ensures FirstIndex(d, x, eq) == Some(k)
  {
    assert Member(d, x, eq);
  }

  /**
   * The loop of `get_index` over a numbering: the keys 1, 2, ... in insertion
   * order, stopping at the first value that equals `x`.
   */
  method FindKey<T>(numbered: map<int, T>, ghost d: seq<T>, x: T, eq: (T, T) -> bool) returns (r: Option<nat>)
    requires numbered == Numbered(d)
    ensures r == FirstIndex(d, x, eq)
  {
    var index := 1;
    while index in numbered
      invariant 1 <= index <= |d| + 1
      invariant forall j :: 0 <= j < index - 1 ==> !eq(d[j], x)
      decreases |d| + 1 - index
    {
      if eq(numbered[index], x) {
        FirstIndexIsSmallest(d, x, eq, index);
        return Some(index);
      }
      index := index + 1;
    }
    r := None;
  }

  /** With a reflexive `==`, every input element gets an index from the deduplicated numbering. */
  lemma DedupIndexTotal<T>(s: seq<T>, eq: (T, T) -> bool, k: nat)
    requires Reflexive(s, eq) && k < |s|
    ensures FirstIndex(Dedup(s, eq), s[k], eq).Some?
  {
    DedupCovers(s, eq);
  }

  /** A kept element gets its own position back. */
  lemma FirstIndexOfKept<T>(s: seq<T>, eq: (T, T) -> bool, k: nat)
    requires k < |Dedup(s, eq)| && eq(Dedup(s, eq)[k], Dedup(s, eq)[k])
    ensures FirstIndex(Dedup(s, eq), Dedup(s, eq)[k], eq) == Some(k + 1)
  {
    DedupDistinct(s, eq);
  }

  /** Python's `[x for x in s if keep(x)]`. */
  function Filter<T>(s: seq<T>, keep: T -> bool): (r: seq<T>)
    ensures |r| <= |s|
  {
    if s == [] then []
    else Filter(s[..|s| - 1], keep) + (if keep(s[|s| - 1]) then [s[|s| - 1]] else [])
  }

  /** The filtered list holds exactly the kept elements, in their original order. */
  lemma {:induction false} FilterSpec<T>(s: seq<T>, keep: T -> bool)
    ensures forall x :: x in Filter(s, keep) <==> x in s && keep(x)
    ensures IsSubsequence(Filter(s, keep), s)
  {
    if s == [] {
      assert SubsequenceVia<T>([], [], []);
    } else {
      var init := s[..|s| - 1];
      FilterSpec(init, keep);
      assert s == init + [s[|s| - 1]];
      var f: seq<nat> :| SubsequenceVia(Filter(init, keep), init, f);
      var x := s[|s| - 1];
      SubsequenceExtend(Filter(init, keep), init, f, x, keep(x));
      if keep(x) {
        assert SubsequenceVia(Filter(s, keep), s, f + [|init|]);
      } else {
        assert SubsequenceVia(Filter(s, keep), s, f);
      }
    }
  }

  /** Filtering a filtered list changes nothing. */
  lemma {:induction false} FilterIdempotent<T>(s: seq<T>, keep: T -> bool)
    ensures Filter(Filter(s, keep), keep) == Filter(s, keep)
    decreases |s|
  {
    if s != [] {
      var init := s[..|s| - 1];
      var x := s[|s| - 1];
      FilterIdempotent(init, keep);
      if keep(x) {
        var f := Filter(init, keep) + [x];
        assert Filter(s, keep) == f;
        assert f[..|f| - 1] == Filter(init, keep) && f[|f| - 1] == x;
        assert Filter(f, keep) == Filter(Filter(init, keep), keep) + [x];
      } else {
        assert Filter(s, keep) == Filter(init, keep);
      }
    }
  }

  /** The concatenation of a list of lists. */
  function Flatten<T>(ss: seq<seq<T>>): (r: seq<T>) {
    if ss == [] then [] else Flatten(ss[..|ss| - 1]) + ss[|ss| - 1]
  }

  /** Taking one more list of a prefix adds that list at the end. */
  lemma FlattenPrefixStep<T>(ss: seq<seq<T>>, i: nat)
    requires i < |ss|
    ensures Flatten(ss[..i + 1]) == Flatten(ss[..i]) + ss[i]
  {
    assert ss[..i + 1][..i] == ss[..i];
  }

  /** The concatenation starts with the first list. */
  lemma {:induction false} FlattenCons<T>(s: seq<T>, ss: seq<seq<T>>)
    ensures Flatten([s] + ss) == s + Flatten(ss)
    decreases |ss|
  {
    if ss != [] {
      assert ([s] + ss)[..|ss|] == [s] + ss[..|ss| - 1];
      FlattenCons(s, ss[..|ss| - 1]);
    } else {
      assert [s][..0] == [];
    }
  }

  lemma {:induction false} FlattenMember<T>(ss: seq<seq<T>>, i: nat, x: T)
    requires i < |ss| && x in ss[i]
    ensures x in Flatten(ss)
  {
    if i < |ss| - 1 {
      FlattenMember(ss[..|ss| - 1], i, x);
    }
  }

  /** Every element of the concatenation comes from one of the lists. */
  lemma {:induction false} FlattenMemberInv<T>(ss: seq<seq<T>>, x: T)
    requires x in Flatten(ss)
    ensures exists i :: 0 <= i < |ss| && x in ss[i]
  {
    var init := ss[..|ss| - 1];
    if x !in ss[|ss| - 1] {
      FlattenMemberInv(init, x);
      var i :| 0 <= i < |init| && x in init[i];
      assert ss[i] == init[i];
    }
  }
}
