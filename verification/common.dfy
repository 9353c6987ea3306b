/** Small building blocks shared by the store, the dashboard and the company list. */
module Common {

  /** A value that may be absent: a missing storage entry, a field left out of a partial update,
      or a JavaScript value that is `null`. */
  datatype Option<T> = None | Some(value: T) {
    /** The carried value, or `default` when there is none. */
    function GetOr(default: T): T
    {
      if Some? then value else default
    }
  }

  /** The elements of `xs` that satisfy `keep`, in their original order, as `Array.prototype.filter`
      computes them. */
  function Filter<T>(xs: seq<T>, keep: T -> bool): (r: seq<T>)
    ensures |r| <= |xs|
    ensures forall i :: 0 <= i < |r| ==> r[i] in xs && keep(r[i])
    ensures forall i :: 0 <= i < |xs| && keep(xs[i]) ==> xs[i] in r
    ensures forall i :: 0 <= i < |xs| ==>
      multiset(r)[xs[i]] == if keep(xs[i]) then multiset(xs)[xs[i]] else 0
  {
    if xs == [] then []
    else
      var rest := Filter(xs[1..], keep);
      var r := if keep(xs[0]) then [xs[0]] + rest else rest;
      FilterMemberStep(xs, keep, rest, r);
      FilterCountStep(xs, keep, rest, r);
      r
  }

  /** One step of `Filter`'s membership facts: from those for the tail to those for `xs`. */
  lemma FilterMemberStep<T>(xs: seq<T>, keep: T -> bool, rest: seq<T>, r: seq<T>)
    requires xs != []
    requires |rest| <= |xs| - 1
    requires forall i :: 0 <= i < |rest| ==> rest[i] in xs[1..] && keep(rest[i])
    requires forall i :: 0 <= i < |xs| - 1 && keep(xs[1..][i]) ==> xs[1..][i] in rest
    requires r == if keep(xs[0]) then [xs[0]] + rest else rest
    ensures |r| <= |xs|
    ensures forall i :: 0 <= i < |r| ==> r[i] in xs && keep(r[i])
    ensures forall i :: 0 <= i < |xs| && keep(xs[i]) ==> xs[i] in r
  {
    assert xs == [xs[0]] + xs[1..];
    forall i | 0 <= i < |r| ensures r[i] in xs && keep(r[i]) {
      if keep(xs[0]) && i > 0 {
        assert r[i] == rest[i - 1];
      }
    }
    forall i | 0 <= i < |xs| && keep(xs[i]) ensures xs[i] in r {
      if i > 0 {
        assert xs[i] == xs[1..][i - 1];
      }
    }
  }

  /** One step of `Filter`'s occurrence count: from the counts for the tail to those for `xs`. */
  lemma FilterCountStep<T>(xs: seq<T>, keep: T -> bool, rest: seq<T>, r: seq<T>)
    requires xs != []
    requires forall i :: 0 <= i < |rest| ==> rest[i] in xs[1..]
    requires forall i :: 0 <= i < |xs| - 1 ==>
      multiset(rest)[xs[1..][i]] == if keep(xs[1..][i]) then multiset(xs[1..])[xs[1..][i]] else 0
    requires r == if keep(xs[0]) then [xs[0]] + rest else rest
    ensures forall i :: 0 <= i < |xs| ==>
      multiset(r)[xs[i]] == if keep(xs[i]) then multiset(xs)[xs[i]] else 0
  {
    assert xs == [xs[0]] + xs[1..];
    assert multiset(xs) == multiset{xs[0]} + multiset(xs[1..]);
    assert multiset(r) == (if keep(xs[0]) then multiset{xs[0]} else multiset{}) + multiset(rest);
    forall i | 0 <= i < |xs|
      ensures multiset(r)[xs[i]] == if keep(xs[i]) then multiset(xs)[xs[i]] else 0
    {
      var e := xs[i];
      if e in xs[1..] {
        var j :| 0 <= j < |xs[1..]| && xs[1..][j] == e;
      } else {
        assert e !in rest;
        assert e !in multiset(rest);
      }
    }
  }

  /** `a` is obtained from `b` by deleting elements: what survives keeps its relative order. */
  ghost predicate IsSubsequence<T>(a: seq<T>, b: seq<T>)
    decreases |b|
  {
    if b == [] then a == []
    else (a != [] && a[0] == b[0] && IsSubsequence(a[1..], b[1..])) || IsSubsequence(a, b[1..])
  }

  /** Filtering only deletes elements; it never reorders the ones it keeps. */
  lemma {:induction false} FilterIsSubsequence<T>(xs: seq<T>, keep: T -> bool)
    ensures IsSubsequence(Filter(xs, keep), xs)
  {
    if xs != [] {
      FilterIsSubsequence(xs[1..], keep);
      var rest := Filter(xs[1..], keep);
      if keep(xs[0]) {
        assert Filter(xs, keep) == [xs[0]] + rest;
        assert ([xs[0]] + rest)[1..] == rest;
      }
    }
  }

  /** A filter that keeps every element returns its input. */
  lemma {:induction false} FilterKeepsAll<T>(xs: seq<T>, keep: T -> bool)
    requires forall i :: 0 <= i < |xs| ==> keep(xs[i])
    ensures Filter(xs, keep) == xs
  {
    if xs != [] {
      FilterKeepsAll(xs[1..], keep);
      assert xs == [xs[0]] + xs[1..];
    }
  }

  /** Filtering a concatenation filters each part. */
  lemma {:induction false} FilterAppend<T>(xs: seq<T>, ys: seq<T>, keep: T -> bool)
    ensures Filter(xs + ys, keep) == Filter(xs, keep) + Filter(ys, keep)
  {
    if xs == [] {
      assert xs + ys == ys;
    } else {
      assert (xs + ys)[1..] == xs[1..] + ys;
      FilterAppend(xs[1..], ys, keep);
    }
  }
}
