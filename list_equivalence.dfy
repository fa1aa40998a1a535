/**
 * The "each element of the first list has an equivalent somewhere in the second, and the lists
 * have the same size" comparison that Service, Host and HostGroup each implement with a pair of
 * nested flag loops. It ignores order, but it is not multiset equality and not symmetric.
 */
module ListEquivalence {
  import opened Wrappers

  predicate HasEquivalent<T>(x: T, l: seq<T>, eq: (T, T) -> bool) {
    exists j :: 0 <= j < |l| && eq(x, l[j])
  }

  predicate ListsEquivalent<T>(l1: seq<T>, l2: seq<T>, eq: (T, T) -> bool) {
    |l1| == |l2| && forall i :: 0 <= i < |l1| ==> HasEquivalent(l1[i], l2, eq)
  }

  /**
   * The nested loop: a size check, then for each element of `l1` a search of `l2` that stops at
   * the first equivalent element; the outer loop stops at the first element without one.
   */
  method AreEquivalent<T>(l1: seq<T>, l2: seq<T>, eq: (T, T) -> bool) returns (equivalent: bool)
    ensures equivalent == ListsEquivalent(l1, l2, eq)
  {
    equivalent := true;
    if |l1| != |l2| {
      equivalent := false;
    } else {
      var i := 0;
      while i < |l1|
        invariant 0 <= i <= |l1|
        invariant forall k :: 0 <= k < i ==> HasEquivalent(l1[k], l2, eq)
      {
        var found := false;
        var j := 0;
        while j < |l2|
          invariant 0 <= j <= |l2|
          invariant forall k :: 0 <= k < j ==> !eq(l1[i], l2[k])
        {
          if eq(l1[i], l2[j]) {
            found := true;
            assert HasEquivalent(l1[i], l2, eq);
            break;
          }
          j := j + 1;
        }
        if !found {
          assert !HasEquivalent(l1[i], l2, eq);
          equivalent := false;
          break;
        }
        i := i + 1;
      }
    }
  }

  /** The comparison depends only on the first list's elements and the second list's elements. */
  lemma ListsEquivalentByMembership<T>(l1: seq<T>, l2: seq<T>, eq: (T, T) -> bool)
    ensures ListsEquivalent(l1, l2, eq) <==>
      |l1| == |l2| && forall x :: x in l1 ==> exists y :: y in l2 && eq(x, y)
  {
    if |l1| == |l2| && forall x :: x in l1 ==> exists y :: y in l2 && eq(x, y) {
      forall i | 0 <= i < |l1| ensures HasEquivalent(l1[i], l2, eq) {
        assert l1[i] in l1;
        var y :| y in l2 && eq(l1[i], y);
        var j :| 0 <= j < |l2| && l2[j] == y;
      }
    }
    if ListsEquivalent(l1, l2, eq) {
      forall x | x in l1 ensures exists y :: y in l2 && eq(x, y) {
        var i :| 0 <= i < |l1| && l1[i] == x;
        assert HasEquivalent(l1[i], l2, eq);
        var j :| 0 <= j < |l2| && eq(x, l2[j]);
        assert l2[j] in l2;
      }
    }
  }

  /** Reordering either list never changes the outcome. */
  lemma PermutationInvariant<T>(l1: seq<T>, p1: seq<T>, l2: seq<T>, p2: seq<T>, eq: (T, T) -> bool)
    requires multiset(l1) == multiset(p1) && multiset(l2) == multiset(p2)
    ensures ListsEquivalent(l1, l2, eq) == ListsEquivalent(p1, p2, eq)
  {
    assert |l1| == |multiset(l1)| == |p1|;
    assert |l2| == |multiset(l2)| == |p2|;
    assert forall x :: x in l1 <==> x in multiset(l1);
    assert forall x :: x in p1 <==> x in multiset(p1);
    assert forall x :: x in l2 <==> x in multiset(l2);
    assert forall x :: x in p2 <==> x in multiset(p2);
    ListsEquivalentByMembership(l1, l2, eq);
    ListsEquivalentByMembership(p1, p2, eq);
  }

  /** With a reflexive element comparison, every list is equivalent to itself. */
  lemma Reflexive<T>(l: seq<T>, eq: (T, T) -> bool)
    requires forall x :: eq(x, x)
    ensures ListsEquivalent(l, l, eq)
  {
    forall i | 0 <= i < |l| ensures HasEquivalent(l[i], l, eq) {
      assert eq(l[i], l[i]);
    }
  }

  /** With a transitive element comparison, the list comparison is transitive. */
  lemma Transitive<T>(l1: seq<T>, l2: seq<T>, l3: seq<T>, eq: (T, T) -> bool)
    requires forall x, y, z :: eq(x, y) && eq(y, z) ==> eq(x, z)
    requires ListsEquivalent(l1, l2, eq) && ListsEquivalent(l2, l3, eq)
    ensures ListsEquivalent(l1, l3, eq)
  {
    forall i | 0 <= i < |l1| ensures HasEquivalent(l1[i], l3, eq) {
      assert HasEquivalent(l1[i], l2, eq);
      var j :| 0 <= j < |l2| && eq(l1[i], l2[j]);
      assert HasEquivalent(l2[j], l3, eq);
      var k :| 0 <= k < |l3| && eq(l2[j], l3[k]);
      assert eq(l1[i], l3[k]);
    }
  }

  /**
   * Not symmetric and not multiset equality: with `a` equivalent to itself but not to `b`,
   * and `b` not equivalent to `a`, the list [a, a] matches [a, b] while [a, b] does not
   * match [a, a].
   */
  lemma OneDirectional<T>(a: T, b: T, eq: (T, T) -> bool)
    requires eq(a, a) && !eq(b, a)
    ensures ListsEquivalent([a, a], [a, b], eq)
    ensures !ListsEquivalent([a, b], [a, a], eq)
  {
    assert HasEquivalent(a, [a, b], eq) by { assert [a, b][0] == a; }
    assert forall j :: 0 <= j < 2 ==> [a, a][j] == a;
    assert [a, b][1] == b;
  }

  // ---------------------------------------------------------------- comparisons that throw

  /**
   * The inner search when the element comparison can throw: the elements of `l` are compared
   * with `x` in order, the first found equivalent ends it with true, and the first exception
   * ends it with that exception.
   */
  function FindOrThrow<T>(x: T, l: seq<T>, eq: (T, T) -> Result<bool>): Result<bool>
    decreases |l|
  {
    if |l| == 0 then Ok(false)
    else match eq(x, l[0])
      case Err(e) => Err(e)
      case Ok(found) => if found then Ok(true) else FindOrThrow(x, l[1..], eq)
  }

  /** The outer loop over `l1` when the comparison can throw, stopping at the first element without a match. */
  function AllFoundOrThrow<T>(l1: seq<T>, l2: seq<T>, eq: (T, T) -> Result<bool>): Result<bool>
    decreases |l1|
  {
    if |l1| == 0 then Ok(true)
    else match FindOrThrow(l1[0], l2, eq)
      case Err(e) => Err(e)
      case Ok(found) => if found then AllFoundOrThrow(l1[1..], l2, eq) else Ok(false)
  }

  /** The nested loop with a comparison that can throw: an exception escapes the whole comparison. */
  function ListsEquivalentOrThrow<T>(l1: seq<T>, l2: seq<T>, eq: (T, T) -> Result<bool>): Result<bool> {
    if |l1| != |l2| then Ok(false) else AllFoundOrThrow(l1, l2, eq)
  }

  /**
   * The nested loop of `AreEquivalent` over a comparison that can throw, the exception leaving
   * both loops.
   */
  method AreEquivalentOrThrow<T>(l1: seq<T>, l2: seq<T>, eq: (T, T) -> Result<bool>) returns (r: Result<bool>)
    ensures r == ListsEquivalentOrThrow(l1, l2, eq)
  {
    if |l1| != |l2| {
      return Ok(false);
    }
    var i := 0;
    while i < |l1|
      invariant 0 <= i <= |l1|
      invariant AllFoundOrThrow(l1, l2, eq) == AllFoundOrThrow(l1[i..], l2, eq)
    {
      var found := false;
      var j := 0;
      while j < |l2|
        invariant 0 <= j <= |l2|
        invariant FindOrThrow(l1[i], l2, eq) == FindOrThrow(l1[i], l2[j..], eq)
      {
        var c := eq(l1[i], l2[j]);
        if c.Err? {
          return Err(c.error);
        }
        if c.value {
          found := true;
          break;
        }
        assert l2[j..][1..] == l2[j + 1..];
        j := j + 1;
      }
      if !found {
        return Ok(false);
      }
      assert l1[i..][1..] == l1[i + 1..];
      i := i + 1;
    }
    r := Ok(true);
  }

  /**
   * Whenever the throwing comparison returns, it agrees with `p`; then so does the list
   * comparison whenever it returns.
   */
  lemma {:induction false} OrThrowAgrees<T>(l1: seq<T>, l2: seq<T>, eq: (T, T) -> Result<bool>, p: (T, T) -> bool)
    requires forall x, y :: eq(x, y).Ok? ==> eq(x, y).value == p(x, y)
    ensures ListsEquivalentOrThrow(l1, l2, eq).Ok? ==>
      ListsEquivalentOrThrow(l1, l2, eq).value == ListsEquivalent(l1, l2, p)
  {
    if |l1| == |l2| {
      AllFoundAgrees(l1, l2, eq, p);
    }
  }

  lemma {:induction false} FindAgrees<T>(x: T, l: seq<T>, eq: (T, T) -> Result<bool>, p: (T, T) -> bool)
    requires forall y :: eq(x, y).Ok? ==> eq(x, y).value == p(x, y)
    ensures FindOrThrow(x, l, eq).Ok? ==> FindOrThrow(x, l, eq).value == HasEquivalent(x, l, p)
    decreases |l|
  {
    if |l| > 0 && eq(x, l[0]) == Ok(false) {
      FindAgrees(x, l[1..], eq, p);
      if HasEquivalent(x, l[1..], p) {
        var j :| 0 <= j < |l[1..]| && p(x, l[1..][j]);
        assert p(x, l[j + 1]);
      }
      if HasEquivalent(x, l, p) {
        var j :| 0 <= j < |l| && p(x, l[j]);
        assert j > 0 && l[1..][j - 1] == l[j];
      }
    } else if |l| > 0 {
      assert eq(x, l[0]).Ok? ==> p(x, l[0]);
    }
  }

  lemma {:induction false} AllFoundAgrees<T>(l1: seq<T>, l2: seq<T>, eq: (T, T) -> Result<bool>, p: (T, T) -> bool)
    requires forall x, y :: eq(x, y).Ok? ==> eq(x, y).value == p(x, y)
    ensures AllFoundOrThrow(l1, l2, eq).Ok? ==>
      (AllFoundOrThrow(l1, l2, eq).value <==> forall i :: 0 <= i < |l1| ==> HasEquivalent(l1[i], l2, p))
    decreases |l1|
  {
    if |l1| > 0 {
      FindAgrees(l1[0], l2, eq, p);
      AllFoundAgrees(l1[1..], l2, eq, p);
      assert forall i :: 0 < i < |l1| ==> l1[1..][i - 1] == l1[i];
    }
  }

  /**
   * A comparison that never throws on the elements of the first list makes the list
   * comparison return, with the verdict of `p`.
   */
  lemma OrThrowWithoutException<T>(l1: seq<T>, l2: seq<T>, eq: (T, T) -> Result<bool>, p: (T, T) -> bool)
    requires forall x, y :: x in l1 ==> eq(x, y) == Ok(p(x, y))
    ensures ListsEquivalentOrThrow(l1, l2, eq) == Ok(ListsEquivalent(l1, l2, p))
  {
    if |l1| == |l2| {
      AllFoundReturns(l1, l2, eq, p);
    }
  }

  lemma {:induction false} FindReturns<T>(x: T, l: seq<T>, eq: (T, T) -> Result<bool>, p: (T, T) -> bool)
    requires forall y :: eq(x, y) == Ok(p(x, y))
    ensures FindOrThrow(x, l, eq).Ok?
    decreases |l|
  {
    if |l| > 0 {
      FindReturns(x, l[1..], eq, p);
    }
  }

  lemma {:induction false} AllFoundReturns<T>(l1: seq<T>, l2: seq<T>, eq: (T, T) -> Result<bool>, p: (T, T) -> bool)
    requires forall x, y :: x in l1 ==> eq(x, y) == Ok(p(x, y))
    ensures AllFoundOrThrow(l1, l2, eq) == Ok(forall i :: 0 <= i < |l1| ==> HasEquivalent(l1[i], l2, p))
    decreases |l1|
  {
    if |l1| > 0 {
      assert l1[0] in l1;
      FindReturns(l1[0], l2, eq, p);
      FindAgrees(l1[0], l2, eq, p);
      assert forall x :: x in l1[1..] ==> x in l1;
      AllFoundReturns(l1[1..], l2, eq, p);
      assert forall i :: 0 < i < |l1| ==> l1[1..][i - 1] == l1[i];
    }
  }
}
