// An iterator over several lists at once (trunk/RO/Alg/MultiListIter.py):
// each step takes the next element of every list, in argument order, and
// the iteration ends when one list runs out.

module MultiListIter {
  import opened Util

  /** The first `n` iterators each take their next element, in order; the
      first one that is exhausted ends the step with StopIteration (None),
      the iterators before it having moved on already. */
  function Step<T>(lists: seq<seq<T>>, pos: seq<nat>, n: nat): (r: (Option<seq<T>>, seq<nat>))
    requires n <= |lists| == |pos|
    ensures |r.1| == |pos|
    ensures forall j :: n <= j < |pos| ==> r.1[j] == pos[j]
    ensures r.0.Some? ==> |r.0.value| == n
  {
    if n == 0 then (Some([]), pos)
    else
      var (elems, p) := Step(lists, pos, n - 1);
      if elems.None? then (None, p)
      else if p[n - 1] >= |lists[n - 1]| then (None, p)
      else (Some(elems.value + [lists[n - 1][p[n - 1]]]), p[n - 1 := p[n - 1] + 1])
  }

  /** Every iterator at position `k`. */
  function Uniform(n: nat, k: nat): (r: seq<nat>)
    ensures |r| == n && forall i :: 0 <= i < n ==> r[i] == k
  {
    seq(n, _ => k)
  }

  /** The k-th element of every list, in argument order. */
  function Column<T>(lists: seq<seq<T>>, k: nat, n: nat): (r: seq<T>)
    requires n <= |lists|
    requires forall i :: 0 <= i < n ==> k < |lists[i]|
    ensures |r| == n
  {
    seq(n, i requires 0 <= i < n => lists[i][k])
  }

  /** While every list has a k-th element, the step from position k gives
      the k-th elements and moves every iterator to k + 1. */
  lemma {:induction false} StepAtColumn<T>(lists: seq<seq<T>>, k: nat, n: nat)
    requires n <= |lists|
    requires forall i :: 0 <= i < n ==> k < |lists[i]|
    ensures Step(lists, Uniform(|lists|, k), n)
      == (Some(Column(lists, k, n)), seq(|lists|, i => if i < n then k + 1 else k))
  {
    if n == 0 {
      assert Uniform(|lists|, k) == seq(|lists|, i => if i < n then k + 1 else k);
      assert Column(lists, k, 0) == [];
    } else {
      StepAtColumn(lists, k, n - 1);
      var p := seq(|lists|, i => if i < n - 1 then k + 1 else k);
      assert p[n - 1 := k + 1] == seq(|lists|, i => if i < n then k + 1 else k);
      assert Column(lists, k, n - 1) + [lists[n - 1][k]] == Column(lists, k, n);
    }
  }

  /** When some list has no k-th element, the step from position k raises
      StopIteration. */
  lemma {:induction false} StepStopsAtShortest<T>(lists: seq<seq<T>>, k: nat, n: nat, j: nat)
    requires j < n <= |lists|
    requires |lists[j]| <= k
    ensures Step(lists, Uniform(|lists|, k), n).0.None?
  {
    if j < n - 1 {
      StepStopsAtShortest(lists, k, n - 1, j);
    }
  }

  class MultiListIter<T> {
    const lists: seq<seq<T>>
    /** The position of each list's iterator. */
    var pos: seq<nat>

    ghost predicate Valid()
      reads this
    {
      |pos| == |lists|
    }

    /** `__init__`: one fresh iterator per list. */
    constructor (lists: seq<seq<T>>)
      ensures Valid() && this.lists == lists && pos == Uniform(|lists|, 0)
    {
      this.lists := lists;
      pos := seq(|lists|, _ => 0);
    }

    /** `__iter__`: the object is its own iterator. */
    method Iter() returns (r: MultiListIter<T>)
      ensures r == this
    {
      return this;
    }

    /** `next`: the next element of every list, or StopIteration (None). */
    method Next() returns (r: Option<seq<T>>)
      requires Valid()
      modifies this`pos
      ensures Valid()
      ensures (r, pos) == Step(lists, old(pos), |lists|)
    {
      var res: seq<T> := [];
      var i := 0;
      while i < |lists|
        invariant 0 <= i <= |lists| && |pos| == |lists|
        invariant Step(lists, old(pos), i) == (Some(res), pos)
      {
        if pos[i] >= |lists[i]| {
          StepStaysStopped(lists, old(pos), i + 1, |lists|);
          return None;
        }
        res := res + [lists[i][pos[i]]];
        pos := pos[i := pos[i] + 1];
        i := i + 1;
      }
      r := Some(res);
    }
  }

  /** Once a step has stopped, the later iterators are not touched. */
  lemma {:induction false} StepStaysStopped<T>(lists: seq<seq<T>>, pos: seq<nat>, i: nat, n: nat)
    requires i <= n <= |lists| == |pos|
    requires Step(lists, pos, i).0.None?
    ensures Step(lists, pos, n) == Step(lists, pos, i)
    decreases n - i
  {
    if i < n {
      StepStaysStopped(lists, pos, i + 1, n);
    }
  }
}
