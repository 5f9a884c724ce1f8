/** The last pass of ParticleGroups (CloudPhinder.py:337-343): particles are
    gathered into bound groups by their bound label, skipping the label -1. */
module Extract {

  /** The particles below `upto` whose bound label is `a`, in index order. */
  function Members(bound: seq<int>, a: int, upto: nat): (r: seq<int>)
    requires upto <= |bound|
    ensures |r| <= upto
    ensures forall t | 0 <= t < |r| :: 0 <= r[t] < upto && bound[r[t]] == a
    decreases upto
  {
    if upto == 0 then []
    else Members(bound, a, upto - 1) + (if bound[upto - 1] == a then [upto - 1] else [])
  }

  /** `Members` lists, in increasing order, exactly the particles below
      `upto` that carry label `a`. */
  lemma {:induction false} MembersExact(bound: seq<int>, a: int, upto: nat)
    requires upto <= |bound|
    ensures var r := Members(bound, a, upto);
      && (forall t :: 0 <= t < |r| ==> 0 <= r[t] < upto && bound[r[t]] == a)
      && (forall t, t' :: 0 <= t < t' < |r| ==> r[t] < r[t'])
      && (forall j :: 0 <= j < upto && bound[j] == a ==> j in r)
    decreases upto
  {
    if upto > 0 {
      MembersExact(bound, a, upto - 1);
      var r0 := Members(bound, a, upto - 1);
      if bound[upto - 1] == a {
        var r := r0 + [upto - 1];
        forall j | 0 <= j < upto && bound[j] == a
          ensures j in r
        {
          if j < upto - 1 {
            assert j in r0;
          } else {
            assert r[|r0|] == j;
          }
        }
      }
    }
  }

  /** The bound groups: one list per non-negative label in use, holding the
      particles that carry it, in index order. */
  method BoundGroups(bound: seq<int>) returns (r: map<int, seq<int>>)
    ensures forall a :: a in r <==> 0 <= a && Members(bound, a, |bound|) != []
    ensures forall a | a in r :: r[a] == Members(bound, a, |bound|)
  {
    r := map[];
    var i := 0;
    while i < |bound|
      invariant 0 <= i <= |bound|
      invariant forall a :: a in r <==> 0 <= a && Members(bound, a, i) != []
      invariant forall a | a in r :: r[a] == Members(bound, a, i)
    {
      var a := bound[i];
      if a >= 0 {
        if a in r {
          r := r[a := r[a] + [i]];
        } else {
          r := r[a := [i]];
        }
      }
      i := i + 1;
    }
  }
}
