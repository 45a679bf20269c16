/**
 Swift's `remove(atOffsets:)` on an array, as the list store and both forms
 use it: the elements at the given offsets go, the rest keep their order.
 */
module Offsets {

  /** Every offset names an element of a sequence of length `n` (Swift traps otherwise). */
  predicate InBounds(offsets: set<nat>, n: nat) {
    forall i :: i in offsets ==> i < n
  }

  /** The indices below `n` that are not offsets, in ascending order. */
  function Survivors(n: nat, offsets: set<nat>): (r: seq<nat>)
    ensures forall k :: 0 <= k < |r| ==> r[k] < n && r[k] !in offsets
    ensures forall j, k :: 0 <= j < k < |r| ==> r[j] < r[k]
    decreases n
  {
    if n == 0 then []
    else Survivors(n - 1, offsets) + (if n - 1 in offsets then [] else [n - 1])
  }

  /** No index that is not an offset is lost. */
  lemma {:induction false} SurvivorsComplete(n: nat, offsets: set<nat>, i: nat)
    requires i < n && i !in offsets
    ensures i in Survivors(n, offsets)
    decreases n
  {
    if i < n - 1 {
      SurvivorsComplete(n - 1, offsets, i);
    }
  }

  /** The offsets that fall below `n`. */
  function Below(offsets: set<nat>, n: nat): set<nat> {
    set i | i in offsets && i < n
  }

  /** Every index below `n` is either an offset or a survivor. */
  lemma {:induction false} SurvivorCount(n: nat, offsets: set<nat>)
    ensures |Survivors(n, offsets)| + |Below(offsets, n)| == n
  {
    if n == 0 {
      assert Below(offsets, 0) == {};
    } else {
      SurvivorCount(n - 1, offsets);
      if n - 1 in offsets {
        assert Below(offsets, n) == Below(offsets, n - 1) + {n - 1};
      } else {
        assert Below(offsets, n) == Below(offsets, n - 1);
      }
    }
  }

  /**
   `s.remove(atOffsets: offsets)`: the k-th element left is the element of `s`
   at the k-th surviving index.
   */
  function RemoveAtOffsets<T>(s: seq<T>, offsets: set<nat>): (r: seq<T>)
    ensures |r| == |Survivors(|s|, offsets)|
    ensures forall k :: 0 <= k < |r| ==> r[k] == s[Survivors(|s|, offsets)[k]]
    decreases |s|
  {
    if |s| == 0 then []
    else
      var front := RemoveAtOffsets(s[..|s| - 1], offsets);
      if |s| - 1 in offsets then front else front + [s[|s| - 1]]
  }

  /** Removing in-bounds offsets shortens the sequence by their number. */
  lemma RemovedLength<T>(s: seq<T>, offsets: set<nat>)
    requires InBounds(offsets, |s|)
    ensures |RemoveAtOffsets(s, offsets)| == |s| - |offsets|
  {
    SurvivorCount(|s|, offsets);
    assert Below(offsets, |s|) == offsets;
  }

  /** Every element left over was an element of `s` at an index that was not removed. */
  lemma RemovedKeepsOnlySurvivors<T>(s: seq<T>, offsets: set<nat>, x: T)
    requires x in RemoveAtOffsets(s, offsets)
    ensures exists i :: 0 <= i < |s| && i !in offsets && s[i] == x
  {
    var r := RemoveAtOffsets(s, offsets);
    var k :| 0 <= k < |r| && r[k] == x;
    var i := Survivors(|s|, offsets)[k];
    assert 0 <= i < |s| && i !in offsets && s[i] == x;
  }

  /** Two survivors appear in the result in the order they had in `s`. */
  lemma RemovedKeepsOrder<T>(s: seq<T>, offsets: set<nat>, i: nat, j: nat)
    requires i < j < |s| && i !in offsets && j !in offsets
    ensures exists p, q :: 0 <= p < q < |RemoveAtOffsets(s, offsets)|
                        && RemoveAtOffsets(s, offsets)[p] == s[i]
                        && RemoveAtOffsets(s, offsets)[q] == s[j]
  {
    var idx := Survivors(|s|, offsets);
    SurvivorsComplete(|s|, offsets, i);
    SurvivorsComplete(|s|, offsets, j);
    var p :| 0 <= p < |idx| && idx[p] == i;
    var q :| 0 <= q < |idx| && idx[q] == j;
    assert p < q;
    var r := RemoveAtOffsets(s, offsets);
    assert r[p] == s[i] && r[q] == s[j];
  }

  /** With no offsets every index survives, in order. */
  lemma {:induction false} SurvivorsOfNothing(n: nat)
    ensures Survivors(n, {}) == seq(n, i => i)
    decreases n
  {
    if n > 0 {
      SurvivorsOfNothing(n - 1);
      assert seq(n, i => i) == seq(n - 1, i => i) + [n - 1];
    }
  }

  /** An empty offset set removes nothing. */
  lemma RemoveNothing<T>(s: seq<T>)
    ensures RemoveAtOffsets(s, {}) == s
  {
    SurvivorsOfNothing(|s|);
  }

}
