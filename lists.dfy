/** Positions in a list comprehension `[f(x) for x in s if keep(x)]`, stated
    once for every element type. */
module Lists {

  predicate Increasing(idx: seq<nat>)
  {
    forall i, j :: 0 <= i < j < |idx| ==> idx[i] < idx[j]
  }

  /** `idx` lists, in increasing order, exactly the positions in `s` of the
      elements `keep` accepts, and `c` is the image under `f` of the elements there. */
  ghost predicate ImageAt<T, U>(s: seq<T>, c: seq<U>, idx: seq<nat>, keep: T -> bool, f: T -> U)
  {
    && |idx| == |c| && Increasing(idx)
    && (forall k :: 0 <= k < |idx| ==> idx[k] < |s| && keep(s[idx[k]]) && c[k] == f(s[idx[k]]))
    && (forall j :: 0 <= j < |s| && keep(s[j]) ==> j in idx)
  }

  /** The positions of all but the last element, with the last one's when it is kept. */
  function Extended<T>(s: seq<T>, prev: seq<nat>, keep: T -> bool): seq<nat>
    requires s != []
  {
    if keep(s[|s| - 1]) then prev + [|s| - 1] else prev
  }

  /** The positions for all but the last element extend to all elements. */
  lemma ImageAtExtend<T, U>(s: seq<T>, c: seq<U>, ci: seq<U>, prev: seq<nat>, keep: T -> bool, f: T -> U)
    requires s != [] && ImageAt(s[..|s| - 1], ci, prev, keep, f)
    requires c == ci + (if keep(s[|s| - 1]) then [f(s[|s| - 1])] else [])
    ensures ImageAt(s, c, Extended(s, prev, keep), keep, f)
  {
    ExtendedImage(s, c, ci, prev, keep, f);
    ExtendedCovers(s, ci, prev, keep, f);
  }

  lemma ExtendedImage<T, U>(s: seq<T>, c: seq<U>, ci: seq<U>, prev: seq<nat>, keep: T -> bool, f: T -> U)
    requires s != [] && ImageAt(s[..|s| - 1], ci, prev, keep, f)
    requires c == ci + (if keep(s[|s| - 1]) then [f(s[|s| - 1])] else [])
    ensures var idx := Extended(s, prev, keep);
      && |idx| == |c| && Increasing(idx)
      && forall k :: 0 <= k < |idx| ==> idx[k] < |s| && keep(s[idx[k]]) && c[k] == f(s[idx[k]])
  {
    var init := s[..|s| - 1];
    var n := |s| - 1;
    if keep(s[n]) {
      IncreasingSnoc(prev, n);
      var idx := prev + [n];
      forall k | 0 <= k < |idx| ensures idx[k] < |s| && keep(s[idx[k]]) && c[k] == f(s[idx[k]]) {
        if k < |prev| {
          assert idx[k] == prev[k] && c[k] == ci[k];
          assert s[prev[k]] == init[prev[k]];
        }
      }
    } else {
      assert c == ci;
      forall k | 0 <= k < |prev| ensures prev[k] < |s| && keep(s[prev[k]]) && c[k] == f(s[prev[k]]) {
        assert s[prev[k]] == init[prev[k]];
      }
    }
  }

  lemma IncreasingSnoc(prev: seq<nat>, n: nat)
    requires Increasing(prev) && forall k :: 0 <= k < |prev| ==> prev[k] < n
    ensures Increasing(prev + [n])
  {
    var idx := prev + [n];
    forall i, j | 0 <= i < j < |idx| ensures idx[i] < idx[j] {
      assert idx[i] == prev[i];
    }
  }

  lemma ExtendedCovers<T, U>(s: seq<T>, ci: seq<U>, prev: seq<nat>, keep: T -> bool, f: T -> U)
    requires s != [] && ImageAt(s[..|s| - 1], ci, prev, keep, f)
    ensures forall j :: 0 <= j < |s| && keep(s[j]) ==> j in Extended(s, prev, keep)
  {
    var init := s[..|s| - 1];
    forall j | 0 <= j < |s| && keep(s[j]) ensures j in Extended(s, prev, keep) {
      if j < |s| - 1 {
        assert init[j] == s[j];
      }
    }
  }

  /** The image of every kept element is in the comprehension. */
  lemma ImageAtCovers<T, U>(s: seq<T>, c: seq<U>, idx: seq<nat>, keep: T -> bool, f: T -> U)
    requires ImageAt(s, c, idx, keep, f)
    ensures forall j :: 0 <= j < |s| && keep(s[j]) ==> f(s[j]) in c
  {
    forall j | 0 <= j < |s| && keep(s[j]) ensures f(s[j]) in c {
      var k :| 0 <= k < |idx| && idx[k] == j;
      assert c[k] == f(s[j]);
    }
  }
}
