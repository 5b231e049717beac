/** Order-preserving selections: `r` is the elements of `s` at the strictly
    increasing positions `idx`. Row filters (`dropna`, a boolean mask, a group of
    `groupby`, `drop_duplicates`) all produce such a selection. */
module Subsequences {

  predicate PicksAt<T(==)>(r: seq<T>, s: seq<T>, idx: seq<nat>) {
    |idx| == |r|
    && (forall k :: 0 <= k < |idx| ==> idx[k] < |s| && r[k] == s[idx[k]])
    && (forall k, l :: 0 <= k < l < |idx| ==> idx[k] < idx[l])
  }

  /** Every position moved one place on. */
  function Shift(idx: seq<nat>): (r: seq<nat>)
    ensures |r| == |idx|
    ensures forall k :: 0 <= k < |idx| ==> r[k] == idx[k] + 1
    ensures forall j :: j in r <==> j > 0 && j - 1 in idx
  {
    var r := seq(|idx|, k requires 0 <= k < |idx| => idx[k] + 1);
    forall j ensures j in r <==> j > 0 && j - 1 in idx {
      if j > 0 && j - 1 in idx {
        var k :| 0 <= k < |idx| && idx[k] == j - 1;
        assert r[k] == j;
      }
    }
    r
  }

  /** A selection of the tail of `s`, moved one place on, is a selection of `s`. */
  lemma PicksShift<T>(r: seq<T>, s: seq<T>, idx: seq<nat>)
    requires s != [] && PicksAt(r, s[1..], idx)
    ensures PicksAt(r, s, Shift(idx))
  {
    var sh := Shift(idx);
    forall k | 0 <= k < |sh| ensures sh[k] < |s| && r[k] == s[sh[k]] {
      assert s[1..][idx[k]] == s[idx[k] + 1];
    }
  }

  /** The head of `s` in front of a selection of `s` that does not use position 0. */
  lemma PicksCons<T>(r: seq<T>, s: seq<T>, sh: seq<nat>)
    requires s != [] && PicksAt(r, s, sh) && 0 !in sh
    ensures PicksAt([s[0]] + r, s, [0] + sh)
    ensures forall j :: j in [0] + sh <==> j == 0 || j in sh
  {
    var idx', r' := [0] + sh, [s[0]] + r;
    forall k | 0 < k < |idx'| ensures idx'[k] < |s| && r'[k] == s[idx'[k]] {
      assert idx'[k] == sh[k - 1] && r'[k] == r[k - 1];
    }
    forall k, l | 0 <= k < l < |idx'| ensures idx'[k] < idx'[l] {
      assert idx'[l] == sh[l - 1];
      if k > 0 {
        assert idx'[k] == sh[k - 1];
      } else {
        assert sh[l - 1] in sh;
      }
    }
  }

  /** The selection of the tail of `s`, with the head of `s` in front of it or not,
      is a selection of `s`. */
  lemma PicksStep<T>(r: seq<T>, s: seq<T>, idx: seq<nat>, head: bool)
    requires s != [] && PicksAt(r, s[1..], idx)
    ensures var idx' := (if head then [0] else []) + Shift(idx);
      PicksAt(if head then [s[0]] + r else r, s, idx')
      && forall j :: j in idx' <==> (head && j == 0) || (j > 0 && j - 1 in idx)
  {
    var sh := Shift(idx);
    PicksShift(r, s, idx);
    if head {
      PicksCons(r, s, sh);
    } else {
      assert [] + sh == sh;
    }
  }

  /** `r` is exactly the elements of `s` at the positions `keep` marks, in the order
      of `s`. */
  ghost predicate Selects<T>(r: seq<T>, s: seq<T>, keep: seq<bool>) {
    |keep| == |s| && exists idx :: PicksAt(r, s, idx) && MarksExactly(idx, keep)
  }

  /** Deciding the head of `s` extends a selection of its tail. */
  lemma SelectsStep<T>(r: seq<T>, s: seq<T>, keep: seq<bool>)
    requires s != [] && |keep| == |s| && Selects(r, s[1..], keep[1..])
    ensures Selects(if keep[0] then [s[0]] + r else r, s, keep)
  {
    var idx :| PicksAt(r, s[1..], idx) && MarksExactly(idx, keep[1..]);
    var r' := if keep[0] then [s[0]] + r else r;
    var idx' := (if keep[0] then [0] else []) + Shift(idx);
    PicksStep(r, s, idx, keep[0]);
    assert MarksExactly(idx', keep) by {
      forall j | 0 <= j < |s| ensures j in idx' <==> keep[j] {
        if j > 0 {
          assert keep[1..][j - 1] == keep[j];
          assert j - 1 in idx <==> keep[1..][j - 1];
        }
      }
    }
    assert PicksAt(r', s, idx');
  }

  /** The positions `idx` are exactly those `keep` marks. */
  predicate MarksExactly(idx: seq<nat>, keep: seq<bool>) {
    forall j :: 0 <= j < |keep| ==> (j in idx <==> keep[j])
  }

  lemma SelectsNothing<T>(s: seq<T>, keep: seq<bool>)
    requires s == [] && keep == []
    ensures Selects([], s, keep)
  {
    assert PicksAt([], s, []);
  }
}
