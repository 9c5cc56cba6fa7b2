/** List comprehensions of the form `[x for x in s if keep(x)]`, with the
    facts the workflows rely on: a filter keeps exactly the matching elements,
    each once, in their original order. `MapSeq` writes the list a loop builds
    by appending one item per selected element in closed form. */
module Selection {

  /** `[x for x in s if keep(x)]`. */
  function Filter<T>(s: seq<T>, keep: T -> bool): (r: seq<T>)
    ensures |r| <= |s|
  {
    if s == [] then []
    else (if keep(s[0]) then [s[0]] else []) + Filter(s[1..], keep)
  }

  /** Filtering leaves nothing exactly when no element matches. */
  lemma {:induction false} FilterEmpty<T>(s: seq<T>, keep: T -> bool)
    ensures Filter(s, keep) == [] <==> forall i :: 0 <= i < |s| ==> !keep(s[i])
  {
    if s != [] {
      FilterEmpty(s[1..], keep);
      assert forall i :: 1 <= i < |s| ==> s[i] == s[1..][i - 1];
    }
  }

  /** `f` applied to each element, in order; the closed form of a loop that
      appends `f(x)` for each `x`. Its two ensures only read back the body:
      they are there so that proofs using MapSeq need not unfold the sequence
      constructor, not as a specification. */
  function MapSeq<T, U>(s: seq<T>, f: T -> U): (r: seq<U>)
    ensures |r| == |s|
    ensures forall i :: 0 <= i < |s| ==> r[i] == f(s[i])
  {
    seq(|s|, i requires 0 <= i < |s| => f(s[i]))
  }

  /** `r` is `s` read at the strictly increasing positions `idx`. */
  ghost predicate IsSelection<T>(idx: seq<int>, r: seq<T>, s: seq<T>)
  {
    && |idx| == |r|
    && (forall k :: 0 <= k < |idx| ==> 0 <= idx[k] < |s| && r[k] == s[idx[k]])
    && (forall k, l :: 0 <= k < l < |idx| ==> idx[k] < idx[l])
  }

  /** Every position moved one place to the right. */
  function Shift(idx: seq<int>): seq<int>
  {
    MapSeq(idx, (k: int) => k + 1)
  }

  lemma ShiftHas(idx: seq<int>, i: int)
    ensures i in Shift(idx) <==> i - 1 in idx
  {
    if i in Shift(idx) {
      var k :| 0 <= k < |idx| && Shift(idx)[k] == i;
      assert idx[k] == i - 1;
    }
    if i - 1 in idx {
      var k :| 0 <= k < |idx| && idx[k] == i - 1;
      assert Shift(idx)[k] == i;
    }
  }

  /** A selection from the tail, shifted, and optionally preceded by the head,
      is a selection from the whole sequence. */
  lemma SelectionCons<T>(x: T, tail: seq<T>, idx: seq<int>, r: seq<T>, withHead: bool)
    requires IsSelection(idx, r, tail)
    ensures IsSelection((if withHead then [0] else []) + Shift(idx),
                        (if withHead then [x] else []) + r, [x] + tail)
  {
    var s := [x] + tail;
    var head: seq<int> := if withHead then [0] else [];
    var idx2 := head + Shift(idx);
    var r2 := (if withHead then [x] else []) + r;
    forall k | 0 <= k < |idx2|
      ensures 0 <= idx2[k] < |s| && r2[k] == s[idx2[k]]
    {
      if k >= |head| {
        assert idx2[k] == idx[k - |head|] + 1;
        assert r2[k] == r[k - |head|];
      }
    }
    assert forall k :: 0 <= k < |Shift(idx)| ==> Shift(idx)[k] >= 1;
  }

  /** Filtering keeps exactly the positions whose element matches, and keeps
      them in order: the result is `s` read at the increasing list of those
      positions. */
  lemma {:induction false} FilterSelectsInOrder<T>(s: seq<T>, keep: T -> bool)
    ensures exists idx :: IsSelection(idx, Filter(s, keep), s)
                          && forall i :: 0 <= i < |s| ==> (i in idx <==> keep(s[i]))
  {
    if s == [] {
      assert IsSelection([], Filter(s, keep), s);
    } else {
      var tail := s[1..];
      assert s == [s[0]] + tail;
      FilterSelectsInOrder(tail, keep);
      var idx': seq<int> :| IsSelection(idx', Filter(tail, keep), tail)
                           && forall i :: 0 <= i < |tail| ==> (i in idx' <==> keep(tail[i]));
      var head: seq<int> := if keep(s[0]) then [0] else [];
      var idx := head + Shift(idx');
      assert Filter(s, keep) == (if keep(s[0]) then [s[0]] else []) + Filter(tail, keep);
      SelectionCons(s[0], tail, idx', Filter(tail, keep), keep(s[0]));
      forall i | 0 <= i < |s|
        ensures i in idx <==> keep(s[i])
      {
        ShiftHas(idx', i);
        if i > 0 {
          assert tail[i - 1] == s[i];
        }
      }
    }
  }

  /** Filtering distributes over concatenation. */
  lemma {:induction false} FilterAppend<T>(a: seq<T>, b: seq<T>, keep: T -> bool)
    ensures Filter(a + b, keep) == Filter(a, keep) + Filter(b, keep)
  {
    if a == [] {
      assert a + b == b;
    } else {
      var head := if keep(a[0]) then [a[0]] else [];
      assert (a + b)[0] == a[0] && (a + b)[1..] == a[1..] + b;
      assert Filter(a + b, keep) == head + Filter(a[1..] + b, keep);
      FilterAppend(a[1..], b, keep);
      assert Filter(a, keep) == head + Filter(a[1..], keep);
      assert head + (Filter(a[1..], keep) + Filter(b, keep))
          == (head + Filter(a[1..], keep)) + Filter(b, keep);
    }
  }

  /** Mapping distributes over concatenation. */
  lemma MapAppend<T, U>(a: seq<T>, b: seq<T>, f: T -> U)
    ensures MapSeq(a + b, f) == MapSeq(a, f) + MapSeq(b, f)
  {
  }
}
