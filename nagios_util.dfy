/** `NagiosUtil.areEquivalent` over two sets of strings (contact-group names). */
module NagiosUtil {
  import opened JavaString

  function Elements(s: seq<string>): set<string> {
    set x | x in s
  }

  /** What the comparison computes: equal sizes, and every string of `set1` is in `set2`. */
  predicate Equivalent(set1: StringSet, set2: StringSet) {
    |set1| == |set2| && forall x :: x in set1 ==> x in set2
  }

  /**
   * `areEquivalent(set1, set2)`: sets of different sizes are rejected before any element is
   * looked at; otherwise the loop stops at the first string of `set1` missing from `set2`.
   */
  method AreEquivalent(set1: StringSet, set2: StringSet) returns (equivalent: bool)
    ensures |set1| != |set2| ==> !equivalent
    ensures equivalent == Equivalent(set1, set2)
  {
    equivalent := true;
    if |set1| != |set2| {
      equivalent := false;
    } else {
      var i := 0;
      while i < |set1|
        invariant 0 <= i <= |set1|
        invariant forall k :: 0 <= k < i ==> set1[k] in set2
      {
        if set1[i] !in set2 {
          equivalent := false;
          break;
        }
        i := i + 1;
      }
    }
  }

  lemma {:induction false} CardinalityOfElements(s: StringSet)
    ensures |Elements(s)| == |s|
  {
    if |s| > 0 {
      var init: StringSet := s[..|s| - 1];
      assert Elements(s) == Elements(init) + {s[|s| - 1]};
      assert s[|s| - 1] !in Elements(init);
      CardinalityOfElements(init);
    }
  }

  /** The comparison holds exactly when the two sets contain the same strings. */
  lemma EquivalentIffSameStrings(set1: StringSet, set2: StringSet)
    ensures Equivalent(set1, set2) <==> Elements(set1) == Elements(set2)
  {
    var a, b := Elements(set1), Elements(set2);
    CardinalityOfElements(set1);
    CardinalityOfElements(set2);
    if Equivalent(set1, set2) {
      assert a <= b;
      assert a * b == a;
      assert a + b == b;
      assert a - b == {};
      assert |b - a| == 0;
      assert b - a == {};
      assert forall x :: x in b ==> x in a;
      assert a == b;
    }
    if a == b {
      assert forall x :: x in set1 ==> x in a;
      assert forall x :: x in b ==> x in set2;
    }
  }

  /** Swapping the arguments never changes the result. */
  lemma Symmetric(set1: StringSet, set2: StringSet)
    ensures Equivalent(set1, set2) == Equivalent(set2, set1)
  {
    EquivalentIffSameStrings(set1, set2);
    EquivalentIffSameStrings(set2, set1);
  }

  /** Every set is equivalent to itself; in particular two empty sets are equivalent. */
  lemma Reflexive(s: StringSet)
    ensures Equivalent(s, s)
    ensures Equivalent([], [])
  {
  }

  lemma Transitive(set1: StringSet, set2: StringSet, set3: StringSet)
    requires Equivalent(set1, set2) && Equivalent(set2, set3)
    ensures Equivalent(set1, set3)
  {
  }
}
