/** The gravitational terms of the energy ledger, with the kernels left
    abstract. The direct-summation kernel (BruteForcePotential2) and the tree
    walk (pykdgrav) are floating-point code outside this model; they enter as
    the two functions of a `Kernels` value. A tree is represented by the list
    of particles it was built over. */
module Gravity {
  import opened Ledger

  datatype Option<T> = None | Some(value: T)

  /** `pair(b, a)` is the potential at particle `b` due to particle `a`;
      `walk(b, t)` is the potential at particle `b` from a tree built over the
      particles `t`. */
  datatype Kernels = Kernels(pair: (int, int) -> real, walk: (int, seq<int>) -> real)

  /** The particles a group's tree was built over (none when it has no tree). */
  function Snapshot(tree: Option<seq<int>>): (r: seq<int>)
    ensures tree.Some? ==> r == tree.value
    ensures tree.None? ==> r == []
  {
    match tree
    case None => []
    case Some(t) => t
  }

  /** Potential at `b` due to `sources`, summed directly. */
  function Direct(k: Kernels, b: int, sources: seq<int>): real
    decreases |sources|
  {
    if sources == [] then 0.0
    else Direct(k, b, sources[..|sources| - 1]) + k.pair(b, sources[|sources| - 1])
  }

  /** The tree walk agrees with direct summation over the tree's particles:
      the assumption under which the ledger's potential part is exact. */
  ghost predicate ExactWalk(k: Kernels) {
    forall b: int, t: seq<int> :: k.walk(b, t) == Direct(k, b, t)
  }

  /** The potential `phi` at particle `i` inside EnergyIncrement
      (CloudPhinder.py:143-148): direct summation over the members added
      since the last tree build, plus the walk of the tree if there is one. */
  function PotentialAt(k: Kernels, i: int, tree: Option<seq<int>>, pending: seq<int>): (phi: real)
    ensures tree.None? ==> phi == Direct(k, i, pending)
    ensures ExactWalk(k) ==> phi == Direct(k, i, Snapshot(tree) + pending)
  {
    DirectConcat(k, i, Snapshot(tree), pending);
    var near := if pending != [] then Direct(k, i, pending) else 0.0;
    match tree
    case None => near
    case Some(t) => near + k.walk(i, t)
  }

  /** InteractionEnergy (CloudPhinder.py:95-111): the sum over the members `b`
      of group B of `m[b]` times the potential at `b` due to group A, taken
      from A's tree and pending list when A has a tree and by direct
      summation over A's members otherwise. */
  function Interaction(k: Kernels, m: seq<real>, groupA: seq<int>, treeA: Option<seq<int>>,
                       pendingA: seq<int>, groupB: seq<int>): (r: real)
    requires forall j :: 0 <= j < |groupB| ==> 0 <= groupB[j] < |m|
    ensures treeA.None? ==> r == Cross(k, m, groupB, groupA)
    decreases |groupB|
  {
    if groupB == [] then 0.0
    else
      var b := groupB[|groupB| - 1];
      var phi := match treeA
        case Some(t) => k.walk(b, t) + Direct(k, b, pendingA)
        case None => Direct(k, b, groupA);
      Interaction(k, m, groupA, treeA, pendingA, groupB[..|groupB| - 1]) + Weigh(m[b], phi)
  }

  /** The sum over `targets` of their mass times the potential due to
      `sources`. */
  function Cross(k: Kernels, m: seq<real>, targets: seq<int>, sources: seq<int>): real
    requires forall j :: 0 <= j < |targets| ==> 0 <= targets[j] < |m|
    decreases |targets|
  {
    if targets == [] then 0.0
    else
      var b := targets[|targets| - 1];
      Cross(k, m, targets[..|targets| - 1], sources) + Weigh(m[b], Direct(k, b, sources))
  }

  /** The potential energy the ledger accumulates for a group built in the
      order `s`: each member contributes its mass times the potential due to
      the members before it. */
  function PairEnergy(k: Kernels, m: seq<real>, s: seq<int>): real
    requires forall j :: 0 <= j < |s| ==> 0 <= s[j] < |m|
    decreases |s|
  {
    if s == [] then 0.0
    else
      var p := s[|s| - 1];
      PairEnergy(k, m, s[..|s| - 1]) + Weigh(m[p], Direct(k, p, s[..|s| - 1]))
  }

  lemma {:induction false} DirectConcat(k: Kernels, b: int, s: seq<int>, t: seq<int>)
    ensures Direct(k, b, s + t) == Direct(k, b, s) + Direct(k, b, t)
    decreases |t|
  {
    if t == [] {
      assert s + t == s;
    } else {
      var t0 := t[..|t| - 1];
      assert (s + t)[..|s + t| - 1] == s + t0;
      DirectConcat(k, b, s, t0);
    }
  }

  /** With an exact walk, InteractionEnergy is the direct cross term. */
  lemma {:induction false} InteractionExact(k: Kernels, m: seq<real>, groupA: seq<int>, treeA: Option<seq<int>>,
                                            pendingA: seq<int>, groupB: seq<int>)
    requires forall j :: 0 <= j < |groupB| ==> 0 <= groupB[j] < |m|
    requires ExactWalk(k) && Snapshot(treeA) + pendingA == groupA
    ensures Interaction(k, m, groupA, treeA, pendingA, groupB) == Cross(k, m, groupB, groupA)
    decreases |groupB|
  {
    if groupB != [] {
      var b := groupB[|groupB| - 1];
      InteractionExact(k, m, groupA, treeA, pendingA, groupB[..|groupB| - 1]);
      DirectConcat(k, b, Snapshot(treeA), pendingA);
    }
  }

  /** The potential energy of two groups joined is the energy of each plus
      the cross term of the second in the field of the first; this is the
      identity the merge step of the ledger relies on. */
  lemma {:induction false} PairEnergyConcat(k: Kernels, m: seq<real>, a: seq<int>, b: seq<int>)
    requires forall j :: 0 <= j < |a| ==> 0 <= a[j] < |m|
    requires forall j :: 0 <= j < |b| ==> 0 <= b[j] < |m|
    ensures forall j :: 0 <= j < |a + b| ==> 0 <= (a + b)[j] < |m|
    ensures PairEnergy(k, m, a + b) == PairEnergy(k, m, a) + PairEnergy(k, m, b) + Cross(k, m, b, a)
    decreases |b|
  {
    if b == [] {
      assert a + b == a;
    } else {
      var b0, p := b[..|b| - 1], b[|b| - 1];
      assert (a + b)[..|a + b| - 1] == a + b0;
      assert (a + b)[|a + b| - 1] == p;
      PairEnergyConcat(k, m, a, b0);
      DirectConcat(k, p, a, b0);
      WeighAdd(m[p], Direct(k, p, a), Direct(k, p, b0), Direct(k, p, a + b0));
    }
  }
}
