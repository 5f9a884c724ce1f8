/** The linking rule of ParticleGroups as it shows in the labels: a particle
    without the sentinel in its row that has a denser neighbour ends up in
    the group of its nearest denser neighbour, and, when it has two or more,
    in the group of its second nearest as well (CloudPhinder.py:240-333).
    Every group is keyed by a particle that founded one (208-217, 229-238). */
module Linking {
  import opened Neighbours
  import opened Groups

  /** Particle `j` founds a group: its row holds the sentinel, or it has no
      denser neighbour. */
  ghost predicate Founds(row: seq<int>, phi: seq<real>, j: int)
    requires 0 <= j < |phi|
  {
    HasSentinel(row, |phi|) || CountDenser(row, phi, j, |row|) == 0
  }

  /** One neighbour row and one distance row per particle, of equal length. */
  ghost predicate Rows(ngb: seq<seq<int>>, ngbDist: seq<seq<real>>, n: int) {
    |ngb| == n && |ngbDist| == n && forall j | 0 <= j < n :: |ngbDist[j]| == |ngb[j]|
  }

  /** Particle `j` carries the label of its nearest denser neighbour and,
      when it has at least two denser neighbours, that of the second
      nearest. */
  ghost predicate LinkedAt(row: seq<int>, dist: seq<real>, phi: seq<real>, lab: seq<int>, j: int)
    requires 0 <= j < |phi| && |lab| == |phi| && |dist| == |row|
  {
    && (forall ka | IsNearest(row, dist, phi, j, ka) :: lab[row[ka]] == lab[j])
    && (CountDenser(row, phi, j, |row|) >= 2 ==>
          forall ka, kb | IsNearest(row, dist, phi, j, ka) && IsSecond(row, dist, phi, j, ka, kb) ::
            lab[row[kb]] == lab[j])
  }

  /** `LinkedAt` for every particle below `upto` whose row has no sentinel. */
  ghost predicate Linked(ngb: seq<seq<int>>, ngbDist: seq<seq<real>>, phi: seq<real>, lab: seq<int>, upto: int)
    requires Rows(ngb, ngbDist, |phi|) && |lab| == |phi| && upto <= |phi|
  {
    forall j | 0 <= j < upto && !HasSentinel(ngb[j], |phi|) :: LinkedAt(ngb[j], ngbDist[j], phi, lab, j)
  }

  /** The nearest denser slot is unique. */
  lemma NearestUnique(row: seq<int>, dist: seq<real>, phi: seq<real>, i: int, ka: int, kc: int)
    requires 0 <= i < |phi| && |dist| == |row|
    requires IsNearest(row, dist, phi, i, ka) && IsNearest(row, dist, phi, i, kc)
    ensures ka == kc
  {
  }

  /** So is the second nearest. */
  lemma SecondUnique(row: seq<int>, dist: seq<real>, phi: seq<real>, i: int, ka: int, kb: int, kc: int)
    requires 0 <= i < |phi| && |dist| == |row|
    requires IsSecond(row, dist, phi, i, ka, kb) && IsSecond(row, dist, phi, i, ka, kc)
    ensures kb == kc
  {
  }

  /** Relabelling that keeps equal labels equal among the particles below
      `upto` keeps them linked: their denser neighbours come earlier. */
  lemma {:induction false} LinkedKeep(ngb: seq<seq<int>>, ngbDist: seq<seq<real>>, rho: seq<real>, phi: seq<real>,
                                      lab: seq<int>, lab': seq<int>, upto: int)
    requires NonIncreasing(rho) && phi == NegatedDensity(rho)
    requires Rows(ngb, ngbDist, |phi|) && |lab| == |phi| && |lab'| == |phi| && 0 <= upto <= |phi|
    requires Linked(ngb, ngbDist, phi, lab, upto)
    requires forall p, q | 0 <= p < upto && 0 <= q < upto && lab[p] == lab[q] :: lab'[p] == lab'[q]
    ensures Linked(ngb, ngbDist, phi, lab', upto)
  {
    forall j | 0 <= j < upto && !HasSentinel(ngb[j], |phi|)
      ensures LinkedAt(ngb[j], ngbDist[j], phi, lab', j)
    {
      var row, dist := ngb[j], ngbDist[j];
      assert LinkedAt(row, dist, phi, lab, j);
      forall ka | IsNearest(row, dist, phi, j, ka)
        ensures lab'[row[ka]] == lab'[j]
      {
        DenserIsEarlier(row, rho, j, ka);
      }
      if CountDenser(row, phi, j, |row|) >= 2 {
        forall ka, kb | IsNearest(row, dist, phi, j, ka) && IsSecond(row, dist, phi, j, ka, kb)
          ensures lab'[row[kb]] == lab'[j]
        {
          DenserIsEarlier(row, rho, j, kb);
        }
      }
    }
  }

  /** A founder: the links of the earlier particles stay, and the founder
      itself is linked to nothing, or has the sentinel. */
  lemma LinkedFound(ngb: seq<seq<int>>, ngbDist: seq<seq<real>>, rho: seq<real>, phi: seq<real>,
                    lab: seq<int>, i: int)
    requires NonIncreasing(rho) && phi == NegatedDensity(rho)
    requires Rows(ngb, ngbDist, |phi|) && |lab| == |phi| && 0 <= i < |phi|
    requires Linked(ngb, ngbDist, phi, lab, i) && Founds(ngb[i], phi, i)
    ensures Linked(ngb, ngbDist, phi, lab[i := i], i + 1)
  {
    LinkedKeep(ngb, ngbDist, rho, phi, lab, lab[i := i], i);
  }

  /** Particle `i` takes label `g`, the label of its nearest denser
      neighbour and, when it has two or more, of its second nearest
      (CloudPhinder.py:240-242). */
  lemma LinkedJoin(ngb: seq<seq<int>>, ngbDist: seq<seq<real>>, rho: seq<real>, phi: seq<real>,
                   lab: seq<int>, i: int, g: int, ka: int, kb: int)
    requires NonIncreasing(rho) && phi == NegatedDensity(rho)
    requires Rows(ngb, ngbDist, |phi|) && |lab| == |phi| && 0 <= i < |phi|
    requires Linked(ngb, ngbDist, phi, lab, i)
    requires IsNearest(ngb[i], ngbDist[i], phi, i, ka) && lab[ngb[i][ka]] == g
    requires CountDenser(ngb[i], phi, i, |ngb[i]|) == 1
             || (IsSecond(ngb[i], ngbDist[i], phi, i, ka, kb) && lab[ngb[i][kb]] == g)
    ensures Linked(ngb, ngbDist, phi, lab[i := g], i + 1)
  {
    var row, dist, lab' := ngb[i], ngbDist[i], lab[i := g];
    LinkedKeep(ngb, ngbDist, rho, phi, lab, lab', i);
    DenserIsEarlier(row, rho, i, ka);
    forall kc | IsNearest(row, dist, phi, i, kc)
      ensures lab'[row[kc]] == lab'[i]
    {
      NearestUnique(row, dist, phi, i, ka, kc);
    }
    if CountDenser(row, phi, i, |row|) >= 2 {
      DenserIsEarlier(row, rho, i, kb);
      forall kc, kd | IsNearest(row, dist, phi, i, kc) && IsSecond(row, dist, phi, i, kc, kd)
        ensures lab'[row[kd]] == lab'[i]
      {
        NearestUnique(row, dist, phi, i, ka, kc);
        SecondUnique(row, dist, phi, i, ka, kb, kd);
      }
    }
  }

  /** At a saddle the two nearest denser neighbours carry labels `a` and
      `b`; `b` is relabelled `a` and particle `i` takes `a`
      (CloudPhinder.py:245-302, 314). */
  lemma LinkedMerge(ngb: seq<seq<int>>, ngbDist: seq<seq<real>>, rho: seq<real>, phi: seq<real>,
                    lab: seq<int>, i: int, a: int, b: int, ka: int, kb: int)
    requires NonIncreasing(rho) && phi == NegatedDensity(rho)
    requires Rows(ngb, ngbDist, |phi|) && |lab| == |phi| && 0 <= i < |phi|
    requires Linked(ngb, ngbDist, phi, lab, i)
    requires IsNearest(ngb[i], ngbDist[i], phi, i, ka) && IsSecond(ngb[i], ngbDist[i], phi, i, ka, kb)
    requires lab[ngb[i][ka]] == a || lab[ngb[i][ka]] == b
    requires lab[ngb[i][kb]] == a || lab[ngb[i][kb]] == b
    ensures Linked(ngb, ngbDist, phi, Relabel(lab, b, a)[i := a], i + 1)
  {
    var row, dist, lab' := ngb[i], ngbDist[i], Relabel(lab, b, a)[i := a];
    LinkedKeep(ngb, ngbDist, rho, phi, lab, lab', i);
    DenserIsEarlier(row, rho, i, ka);
    DenserIsEarlier(row, rho, i, kb);
    forall kc | IsNearest(row, dist, phi, i, kc)
      ensures lab'[row[kc]] == lab'[i]
    {
      NearestUnique(row, dist, phi, i, ka, kc);
    }
    forall kc, kd | IsNearest(row, dist, phi, i, kc) && IsSecond(row, dist, phi, i, kc, kd)
      ensures lab'[row[kd]] == lab'[i]
    {
      NearestUnique(row, dist, phi, i, ka, kc);
      SecondUnique(row, dist, phi, i, ka, kb, kd);
    }
  }
}
