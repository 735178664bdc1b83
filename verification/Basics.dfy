/** Numbers several modules share. */
module Basics {

  type Positive = n: nat | 0 < n witness 1

  /** A value nobody has used yet, as a fresh random nonce is. */
  lemma {:induction false} FreshExists(used: set<nat>) returns (bound: nat)
    ensures bound > 0 && forall n | n in used :: n < bound
  {
    if used == {} {
      bound := 1;
    } else {
      var n :| n in used;
      var rest := FreshExists(used - {n});
      bound := if n < rest then rest else n + 1;
      assert forall m | m in used :: m == n || m in used - {n};
    }
  }
}
