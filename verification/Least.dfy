/** The least element of a finite set of numbers: what ORDER BY … LIMIT 1 selects. */
module Least {
  predicate IsLeast(k: nat, keys: set<nat>) {
    k in keys && forall j <- keys :: k <= j
  }

  lemma {:induction false} LeastExists(keys: set<nat>)
    requires keys != {}
    ensures exists k :: IsLeast(k, keys)
    decreases |keys|
  {
    var k :| k in keys;
    if forall j <- keys :: k <= j {
      assert IsLeast(k, keys);
    } else {
      var lower :| lower in keys && lower < k;
      assert lower in keys - {k};
      LeastExists(keys - {k});
      var j :| IsLeast(j, keys - {k});
      var least := if j <= k then j else k;
      assert forall i <- keys :: i == k || i in keys - {k};
      assert IsLeast(least, keys);
    }
  }
}
