/** `RDSUtil`: which database instances are monitored, by identifier prefix. */
module RDSUtil {
  import opened JavaString

  const TYPE_NAME: string := "aws_rds"

  /** `isDBInstanceEligible(dbInstance, dbInstancePrefix)`: an empty prefix admits every instance. */
  predicate IsDBInstanceEligible(dbInstance: string, dbInstancePrefix: string) {
    !(dbInstancePrefix != "" && !StartsWith(dbInstance, dbInstancePrefix))
  }

  /** With an empty prefix every instance is eligible; otherwise exactly those it starts. */
  lemma EligibleIffPrefixed(dbInstance: string, dbInstancePrefix: string)
    ensures dbInstancePrefix == "" ==> IsDBInstanceEligible(dbInstance, dbInstancePrefix)
    ensures dbInstancePrefix != "" ==>
      (IsDBInstanceEligible(dbInstance, dbInstancePrefix) <==>
         |dbInstancePrefix| <= |dbInstance| && forall i :: 0 <= i < |dbInstancePrefix| ==> dbInstance[i] == dbInstancePrefix[i])
  {
    if |dbInstancePrefix| <= |dbInstance| && forall i :: 0 <= i < |dbInstancePrefix| ==> dbInstance[i] == dbInstancePrefix[i] {
      assert dbInstance[..|dbInstancePrefix|] == dbInstancePrefix;
    }
  }

  /** An identifier equal to the prefix is eligible. */
  lemma PrefixItselfEligible(prefix: string)
    ensures IsDBInstanceEligible(prefix, prefix)
  {
  }

  /** A longer prefix admits fewer instances: eligible under `p + q` implies eligible under `p`. */
  lemma LongerPrefixNarrows(dbInstance: string, p: string, q: string)
    requires IsDBInstanceEligible(dbInstance, p + q)
    ensures IsDBInstanceEligible(dbInstance, p)
  {
    if p + q != "" {
      assert dbInstance[..|p|] == (p + q)[..|p|];
    }
  }
}
