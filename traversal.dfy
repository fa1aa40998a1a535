/**
 * The list loops the lookups are made of: applying a throwing call to each element in order
 * and collecting the results (the first exception ends the loop), keeping the elements that
 * pass a test, and walking a list of lists.
 */
module Traversal {
  import opened Wrappers

  /** `f` applied to each element of `xs` in order; the first `Err` is the result. */
  function MapResult<T, U>(xs: seq<T>, f: T -> Result<U>): (r: Result<seq<U>>)
    ensures r.Ok? ==> |r.value| == |xs|
  {
    if |xs| == 0 then Ok([])
    else
      var before :- MapResult(xs[..|xs| - 1], f);
      var y :- f(xs[|xs| - 1]);
      Ok(before + [y])
  }

  /** It succeeds exactly when every call does, and then holds every call's value in order. */
  lemma {:induction false} MapResultShape<T, U>(xs: seq<T>, f: T -> Result<U>)
    ensures MapResult(xs, f).Ok? <==> forall i :: 0 <= i < |xs| ==> f(xs[i]).Ok?
    ensures MapResult(xs, f).Ok? ==> forall i :: 0 <= i < |xs| ==> MapResult(xs, f).value[i] == f(xs[i]).value
  {
    if |xs| > 0 {
      var init := xs[..|xs| - 1];
      MapResultShape(init, f);
      assert forall i :: 0 <= i < |init| ==> init[i] == xs[i];
    }
  }

  /** One more step of the loop: the prefix one element longer. */
  lemma MapResultStep<T, U>(xs: seq<T>, f: T -> Result<U>, n: nat)
    requires n < |xs|
    ensures MapResult(xs[..n + 1], f)
         == (if MapResult(xs[..n], f).Err? then MapResult(xs[..n], f)
             else if f(xs[n]).Err? then Err(f(xs[n]).error)
             else Ok(MapResult(xs[..n], f).value + [f(xs[n]).value]))
  {
    assert xs[..n + 1][..n] == xs[..n];
  }

  /** Once a prefix has failed, the whole list fails with the same exception. */
  lemma {:induction false} MapResultFirstError<T, U>(xs: seq<T>, f: T -> Result<U>, n: nat)
    requires n <= |xs|
    requires MapResult(xs[..n], f).Err?
    ensures MapResult(xs, f) == MapResult(xs[..n], f)
    decreases |xs| - n
  {
    if n < |xs| {
      MapResultStep(xs, f, n);
      MapResultFirstError(xs, f, n + 1);
    } else {
      assert xs[..n] == xs;
    }
  }

  /** The elements of `xs` that pass `p`, in order. */
  function Filter<T>(xs: seq<T>, p: T -> bool): (r: seq<T>)
    ensures |r| <= |xs|
  {
    if |xs| == 0 then []
    else Filter(xs[..|xs| - 1], p) + (if p(xs[|xs| - 1]) then [xs[|xs| - 1]] else [])
  }

  /** One more step of a filtering loop. */
  lemma FilterStep<T>(xs: seq<T>, p: T -> bool, n: nat)
    requires n < |xs|
    ensures Filter(xs[..n + 1], p) == Filter(xs[..n], p) + (if p(xs[n]) then [xs[n]] else [])
  {
    assert xs[..n + 1][..n] == xs[..n];
  }

  /** What is kept is exactly what is in the list and passes the test. */
  lemma {:induction false} FilterMembers<T>(xs: seq<T>, p: T -> bool)
    ensures forall x :: x in Filter(xs, p) <==> x in xs && p(x)
  {
    if |xs| > 0 {
      var init := xs[..|xs| - 1];
      FilterMembers(init, p);
      assert xs == init + [xs[|xs| - 1]];
    }
  }

  /** The lists of `xss` one after the other. */
  function Flatten<T>(xss: seq<seq<T>>): seq<T> {
    if |xss| == 0 then [] else Flatten(xss[..|xss| - 1]) + xss[|xss| - 1]
  }

  lemma FlattenStep<T>(xss: seq<seq<T>>, n: nat)
    requires n < |xss|
    ensures Flatten(xss[..n + 1]) == Flatten(xss[..n]) + xss[n]
  {
    assert xss[..n + 1][..n] == xss[..n];
  }

  /** An element of the flattened list is an element of one of the lists. */
  lemma {:induction false} FlattenMembers<T>(xss: seq<seq<T>>)
    ensures forall x :: x in Flatten(xss) ==> exists i :: 0 <= i < |xss| && x in xss[i]
    ensures forall i, x :: 0 <= i < |xss| && x in xss[i] ==> x in Flatten(xss)
  {
    if |xss| > 0 {
      var init := xss[..|xss| - 1];
      FlattenMembers(init);
      forall x | x in Flatten(xss)
        ensures exists i :: 0 <= i < |xss| && x in xss[i]
      {
        if x !in xss[|xss| - 1] {
          assert x in Flatten(init);
          var i :| 0 <= i < |init| && x in init[i];
          assert xss[i] == init[i];
        }
      }
      forall x, i | 0 <= i < |xss| && x in xss[i]
        ensures x in Flatten(xss)
      {
        if i < |init| {
          assert init[i] == xss[i];
        }
      }
    }
  }
}
