/** Order-preserving filtering, the model of JavaScript's `Array.prototype.filter`,
    which the ledger uses for deletion and for every date-bucketing query. */
module Sequences {

  /** The elements of `s` that satisfy `keep`, in their original order. */
  function Filter<T>(s: seq<T>, keep: T -> bool): (r: seq<T>)
    ensures |r| <= |s|
  {
    if s == [] then []
    else Filter(s[..|s| - 1], keep) + (if keep(s[|s| - 1]) then [s[|s| - 1]] else [])
  }

  /** Everything kept comes from `s` and passes `keep`; everything in `s` that
      passes `keep` is kept. */
  lemma {:induction false} FilterMembers<T>(s: seq<T>, keep: T -> bool)
    ensures forall k :: 0 <= k < |Filter(s, keep)| ==> Filter(s, keep)[k] in s && keep(Filter(s, keep)[k])
    ensures forall i :: 0 <= i < |s| && keep(s[i]) ==> s[i] in Filter(s, keep)
  {
    if s != [] {
      var init, x := s[..|s| - 1], s[|s| - 1];
      FilterMembers(init, keep);
      var f := Filter(init, keep);
      assert Filter(s, keep) == f + (if keep(x) then [x] else []);
      forall k | 0 <= k < |f| ensures f[k] in s {
        assert f[k] in init;
      }
      forall i | 0 <= i < |s| && keep(s[i]) ensures s[i] in Filter(s, keep) {
        if i < |init| {
          assert s[i] == init[i];
        }
      }
    }
  }

  /** The positions of `s` whose elements satisfy `keep`, in increasing order. */
  function KeptIndices<T>(s: seq<T>, keep: T -> bool): (r: seq<nat>)
    ensures forall k :: 0 <= k < |r| ==> r[k] < |s| && keep(s[r[k]])
    ensures forall k, l :: 0 <= k < l < |r| ==> r[k] < r[l]
    ensures forall i :: 0 <= i < |s| && keep(s[i]) ==> i in r
  {
    if s == [] then []
    else KeptIndices(s[..|s| - 1], keep) + (if keep(s[|s| - 1]) then [|s| - 1] else [])
  }

  /** Filtering a sequence extended by one element: the old result, followed by
      the new element exactly when it passes. */
  lemma FilterSnoc<T>(s: seq<T>, x: T, keep: T -> bool)
    ensures Filter(s + [x], keep) == Filter(s, keep) + (if keep(x) then [x] else [])
  {
    assert (s + [x])[..|s|] == s;
  }

  /** `Filter(s, keep)` is exactly the subsequence of `s` at `KeptIndices(s, keep)`:
      the elements that satisfy `keep`, each once, in the order they have in `s`. */
  lemma {:induction false} FilterAt<T>(s: seq<T>, keep: T -> bool)
    ensures |Filter(s, keep)| == |KeptIndices(s, keep)|
    ensures forall k :: 0 <= k < |Filter(s, keep)| ==> Filter(s, keep)[k] == s[KeptIndices(s, keep)[k]]
  {
    if s != [] {
      var init := s[..|s| - 1];
      FilterAt(init, keep);
      var f, ks := Filter(init, keep), KeptIndices(init, keep);
      assert Filter(s, keep) == f + (if keep(s[|s| - 1]) then [s[|s| - 1]] else []);
      assert KeptIndices(s, keep) == ks + (if keep(s[|s| - 1]) then [|s| - 1] else []);
      forall k | 0 <= k < |f|
        ensures Filter(s, keep)[k] == s[KeptIndices(s, keep)[k]]
      {
        assert Filter(s, keep)[k] == f[k] == init[ks[k]];
        assert KeptIndices(s, keep)[k] == ks[k];
      }
    }
  }

  lemma {:induction false} FilterAppend<T>(s: seq<T>, t: seq<T>, keep: T -> bool)
    ensures Filter(s + t, keep) == Filter(s, keep) + Filter(t, keep)
    decreases |t|
  {
    if t == [] {
      assert s + t == s;
    } else {
      var t' := t[..|t| - 1];
      assert (s + t)[..|s + t| - 1] == s + t';
      FilterAppend(s, t', keep);
    }
  }

  /** Filtering a sequence all of whose elements pass leaves it unchanged. */
  lemma {:induction false} FilterAll<T>(s: seq<T>, keep: T -> bool)
    requires forall i :: 0 <= i < |s| ==> keep(s[i])
    ensures Filter(s, keep) == s
  {
    if s != [] {
      FilterAll(s[..|s| - 1], keep);
    }
  }

  /** Filtering twice by the same test is filtering once. */
  lemma FilterIdempotent<T>(s: seq<T>, keep: T -> bool)
    ensures Filter(Filter(s, keep), keep) == Filter(s, keep)
  {
    FilterMembers(s, keep);
    FilterAll(Filter(s, keep), keep);
  }

  /** Filtering by a stronger test can be done after filtering by a weaker one:
      the narrower result is a subsequence of the wider one. */
  lemma {:induction false} FilterNarrow<T>(s: seq<T>, narrow: T -> bool, wide: T -> bool)
    requires forall i :: 0 <= i < |s| && narrow(s[i]) ==> wide(s[i])
    ensures Filter(s, narrow) == Filter(Filter(s, wide), narrow)
  {
    if s != [] {
      var init := s[..|s| - 1];
      var x := s[|s| - 1];
      FilterNarrow(init, narrow, wide);
      FilterAppend(Filter(init, wide), if wide(x) then [x] else [], narrow);
      if !wide(x) {
        assert Filter([], narrow) == [];
      } else {
        assert Filter([x], narrow) == Filter([], narrow) + (if narrow(x) then [x] else []);
      }
    }
  }
}
