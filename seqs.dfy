/** Sequence helpers shared by the whole model: Python list filtering,
    list concatenation and dictionary-key (first occurrence) de-duplication. */
module Seqs {

  predicate NoDups<T(==)>(s: seq<T>) {
    forall i, j | 0 <= i < j < |s| :: s[i] != s[j]
  }

  /** Concatenation of a list of lists, in order. */
  function Flatten<T>(ss: seq<seq<T>>): seq<T>
  {
    if ss == [] then [] else Flatten(ss[..|ss| - 1]) + ss[|ss| - 1]
  }

  lemma {:induction false} FlattenCons<T>(s: seq<T>, ss: seq<seq<T>>)
    ensures Flatten([s] + ss) == s + Flatten(ss)
  {
    if ss == [] {
      assert [s] + ss == [s];
      assert [s][..0] == [];
    } else {
      var init := ss[..|ss| - 1];
      assert ([s] + ss)[..|ss|] == [s] + init;
      FlattenCons(s, init);
    }
  }

  lemma {:induction false} FlattenUniformLength<T>(ss: seq<seq<T>>, k: nat)
    requires forall i | 0 <= i < |ss| :: |ss[i]| == k
    ensures |Flatten(ss)| == |ss| * k
  {
    if ss != [] {
      var m := |ss| - 1;
      FlattenUniformLength(ss[..m], k);
      assert |Flatten(ss)| == m * k + k;
      assert m * k + k == (m + 1) * k;
    }
  }

  /** With lists of equal length k, element j of list i sits at i*k + j. */
  lemma {:induction false} FlattenUniformIndex<T>(ss: seq<seq<T>>, k: nat, i: nat, j: nat)
    requires forall n | 0 <= n < |ss| :: |ss[n]| == k
    requires i < |ss| && j < k
    ensures i * k + j < |Flatten(ss)| && Flatten(ss)[i * k + j] == ss[i][j]
  {
    var m := |ss| - 1;
    FlattenUniformLength(ss[..m], k);
    FlattenUniformLength(ss, k);
    if i < m {
      FlattenUniformIndex(ss[..m], k, i, j);
      assert i * k + j < m * k;
    } else {
      assert i * k + j == m * k + j;
    }
  }

  /** The elements of s that satisfy keep, in order (a list comprehension with an if). */
  function Filter<T>(s: seq<T>, keep: T -> bool): seq<T>
  {
    if s == [] then []
    else
      var f := Filter(s[..|s| - 1], keep);
      if keep(s[|s| - 1]) then f + [s[|s| - 1]] else f
  }

  lemma {:induction false} FilterMembership<T>(s: seq<T>, keep: T -> bool, x: T)
    ensures x in Filter(s, keep) <==> x in s && keep(x)
  {
    if s != [] {
      var init := s[..|s| - 1];
      assert s == init + [s[|s| - 1]];
      FilterMembership(init, keep, x);
    }
  }

  lemma {:induction false} FilterConcat<T>(a: seq<T>, b: seq<T>, keep: T -> bool)
    ensures Filter(a + b, keep) == Filter(a, keep) + Filter(b, keep)
  {
    if b == [] {
      assert a + b == a;
    } else {
      var init := b[..|b| - 1];
      assert (a + b)[..|a + b| - 1] == a + init;
      FilterConcat(a, init, keep);
    }
  }

  lemma {:induction false} FilterAll<T>(s: seq<T>, keep: T -> bool)
    requires forall i | 0 <= i < |s| :: keep(s[i])
    ensures Filter(s, keep) == s
  {
    if s != [] {
      assert s == s[..|s| - 1] + [s[|s| - 1]];
      FilterAll(s[..|s| - 1], keep);
    }
  }

  /** The keys of a Python dict filled from s in order: each value once, at the
      position of its first occurrence. */
  function Dedup<T(==)>(s: seq<T>): seq<T>
  {
    if s == [] then []
    else
      var d := Dedup(s[..|s| - 1]);
      if s[|s| - 1] in d then d else d + [s[|s| - 1]]
  }

  /** The keys are distinct, and they are exactly the values of s. */
  lemma {:induction false} DedupFacts<T>(s: seq<T>)
    ensures NoDups(Dedup(s))
    ensures forall x :: x in Dedup(s) <==> x in s
  {
    if s != [] {
      var init := s[..|s| - 1];
      DedupFacts(init);
      assert s == init + [s[|s| - 1]];
    }
  }

  /** De-duplicating a prefix gives a prefix of the de-duplicated list, so
      first occurrences keep their relative order. */
  lemma {:induction false} DedupPrefix<T>(s: seq<T>, k: nat)
    requires k <= |s|
    ensures Dedup(s[..k]) <= Dedup(s)
    decreases |s|
  {
    if k < |s| {
      var init := s[..|s| - 1];
      DedupPrefix(init, k);
      assert init[..k] == s[..k];
    } else {
      assert s[..k] == s;
    }
  }

  /** An element that does not occur earlier is appended at its first occurrence. */
  lemma DedupFirstOccurrence<T>(s: seq<T>, k: nat)
    requires k < |s| && s[k] !in s[..k]
    ensures Dedup(s[..k + 1]) == Dedup(s[..k]) + [s[k]]
  {
    assert s[..k + 1][..k] == s[..k];
    DedupFacts(s[..k]);
  }

  lemma NoDupsDedup<T>(s: seq<T>)
    requires NoDups(s)
    ensures Dedup(s) == s
  {
    if s != [] {
      var init := s[..|s| - 1];
      NoDupsDedup(init);
      assert s == init + [s[|s| - 1]];
    }
  }
}
