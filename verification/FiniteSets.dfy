/** Sizes of finite sets. */
module FiniteSets {
  lemma Smaller(a: set<nat>, b: set<nat>, x: nat)
    requires a <= b && x in b && x !in a
    ensures a < b && |a| < |b|
  {
    SubsetSize(a + {x}, b);
    assert |a + {x}| == |a| + 1;
  }

  lemma {:induction false} SubsetSize(a: set<nat>, b: set<nat>)
    requires a <= b
    ensures |a| <= |b|
    decreases |a|
  {
    if a != {} {
      var x :| x in a;
      SubsetSize(a - {x}, b - {x});
    }
  }
}
