/**
  In-order selection from a sequence: the shape shared by the LINQ `Where`
  over a directory listing and by the loops that keep one item for every
  picture whose steps all succeeded.
*/
module Selection {
  import opened Wrappers

  /** Keeps `u` for every element that `pick` maps to `Some(u)`, in order. */
  function Select<T, U>(s: seq<T>, pick: T -> Option<U>): seq<U>
  {
    if s == [] then []
    else
      var rest := Select(s[..|s| - 1], pick);
      match pick(s[|s| - 1])
      case Some(u) => rest + [u]
      case None => rest
  }

  /** The indices of the elements `Select` keeps. */
  function Picked<T, U>(s: seq<T>, pick: T -> Option<U>): seq<nat>
  {
    if s == [] then []
    else
      var rest := Picked(s[..|s| - 1], pick);
      if pick(s[|s| - 1]).Some? then rest + [|s| - 1] else rest
  }

  predicate StrictlyIncreasing(idx: seq<nat>) {
    forall a, b :: 0 <= a < b < |idx| ==> idx[a] < idx[b]
  }

  /** `Select` keeps exactly the picked elements, in their original order:
      the j-th kept value comes from the j-th picked index, the indices
      increase, and an index is picked exactly when `pick` gives a value. */
  lemma {:induction false} SelectIsOrderedSubsequence<T, U>(s: seq<T>, pick: T -> Option<U>)
    ensures var r, idx := Select(s, pick), Picked(s, pick);
      |idx| == |r| && StrictlyIncreasing(idx)
      && (forall j :: 0 <= j < |idx| ==> idx[j] < |s| && pick(s[idx[j]]) == Some(r[j]))
      && (forall k :: 0 <= k < |s| ==> (pick(s[k]).Some? <==> k in idx))
  {
    if s != [] {
      var init := s[..|s| - 1];
      SelectIsOrderedSubsequence(init, pick);
      var r0, idx0 := Select(init, pick), Picked(init, pick);
      forall j | 0 <= j < |idx0| ensures s[idx0[j]] == init[idx0[j]] { }
      forall k | 0 <= k < |init| ensures s[k] == init[k] { }
    }
  }

  /** Nothing is kept when `pick` rejects every element. */
  lemma {:induction false} SelectOfNone<T, U>(s: seq<T>, pick: T -> Option<U>)
    requires forall k :: 0 <= k < |s| ==> pick(s[k]).None?
    ensures Select(s, pick) == []
  {
    if s != [] {
      SelectOfNone(s[..|s| - 1], pick);
    }
  }

  /** Selecting from a concatenation selects from each part. */
  lemma {:induction false} SelectAppend<T, U>(s: seq<T>, t: seq<T>, pick: T -> Option<U>)
    ensures Select(s + t, pick) == Select(s, pick) + Select(t, pick)
    decreases |t|
  {
    if t == [] {
      assert s + t == s;
    } else {
      var t0 := t[..|t| - 1];
      assert (s + t)[..|s + t| - 1] == s + t0;
      SelectAppend(s, t0, pick);
    }
  }

  lemma AppendAssociates<T>(a: seq<T>, b: seq<T>, c: seq<T>)
    ensures a + b + c == a + (b + c)
  {
  }

  /** How many elements `pick` rejects. */
  function Rejected<T, U>(s: seq<T>, pick: T -> Option<U>): nat
  {
    if s == [] then 0
    else Rejected(s[..|s| - 1], pick) + (if pick(s[|s| - 1]).None? then 1 else 0)
  }

  /** Every element is either kept or rejected. */
  lemma {:induction false} SelectSplitsInput<T, U>(s: seq<T>, pick: T -> Option<U>)
    ensures |Select(s, pick)| + Rejected(s, pick) == |s|
  {
    if s != [] {
      SelectSplitsInput(s[..|s| - 1], pick);
    }
  }

  /** The elements of a sequence of sequences, one after the other. */
  function Concat<T>(ss: seq<seq<T>>): seq<T>
  {
    if ss == [] then [] else Concat(ss[..|ss| - 1]) + ss[|ss| - 1]
  }

  /** How many elements of `s` satisfy `p`. */
  function Count<T>(s: seq<T>, p: T -> bool): nat
  {
    if s == [] then 0 else Count(s[..|s| - 1], p) + (if p(s[|s| - 1]) then 1 else 0)
  }

  lemma {:induction false} CountAppend<T>(s: seq<T>, t: seq<T>, p: T -> bool)
    ensures Count(s + t, p) == Count(s, p) + Count(t, p)
    decreases |t|
  {
    if t == [] {
      assert s + t == s;
    } else {
      assert (s + t)[..|s + t| - 1] == s + t[..|t| - 1];
      CountAppend(s, t[..|t| - 1], p);
    }
  }
}
