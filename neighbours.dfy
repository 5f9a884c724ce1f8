/** How the assembler reads a particle's neighbour row: the sentinel test,
    the denser neighbours (lower `phi`, skipping slot 0, which holds the
    particle itself) and the nearest two of them. */
module Neighbours {

  /** `phi = -rho` (CloudPhinder.py:181). */
  function NegatedDensity(rho: seq<real>): (phi: seq<real>)
    ensures |phi| == |rho|
    ensures forall j :: 0 <= j < |rho| ==> phi[j] == -rho[j]
  {
    seq(|rho|, j requires 0 <= j < |rho| => -rho[j])
  }

  /** Densities sorted in decreasing order, as the upstream sort leaves them. */
  predicate NonIncreasing(rho: seq<real>) {
    forall j :: 0 <= j < |rho| - 1 ==> rho[j] >= rho[j + 1]
  }

  /** Every slot of the row indexes a particle. */
  predicate RowIn(row: seq<int>, n: int) {
    forall k :: 0 <= k < |row| ==> 0 <= row[k] < n
  }

  /** Some slot holds the out-of-range index the neighbour query returns for a
      missing neighbour (CloudPhinder.py:207). */
  predicate HasSentinel(row: seq<int>, n: int) {
    exists k :: 0 <= k < |row| && row[k] > n - 1
  }

  /** `np.any(ngb[i] > len(x) - 1)` (CloudPhinder.py:207), scanned slot by
      slot. */
  method AnySentinel(row: seq<int>, n: int) returns (found: bool)
    ensures found == HasSentinel(row, n)
  {
    found := false;
    var k := 0;
    while k < |row|
      invariant 0 <= k <= |row|
      invariant found <==> exists j :: 0 <= j < k && row[j] > n - 1
    {
      if row[k] > n - 1 {
        found := true;
      }
      k := k + 1;
    }
  }

  /** Slot `k` of the row, past slot 0, holds a neighbour of lower `phi` than
      particle `i` (CloudPhinder.py:220-221). */
  predicate Denser(row: seq<int>, phi: seq<real>, i: int, k: int)
    requires 0 <= i < |phi|
  {
    1 <= k < |row| && 0 <= row[k] < |phi| && phi[row[k]] < phi[i]
  }

  /** The number of denser slots among slots `1..upto-1`. */
  function CountDenser(row: seq<int>, phi: seq<real>, i: int, upto: int): (c: nat)
    requires 0 <= i < |phi| && upto <= |row|
    ensures c <= (if upto < 1 then 0 else upto - 1)
    ensures c == 0 <==> forall k :: 1 <= k < upto ==> !Denser(row, phi, i, k)
    decreases upto
  {
    if upto <= 1 then 0
    else CountDenser(row, phi, i, upto - 1) + (if Denser(row, phi, i, upto - 1) then 1 else 0)
  }

  /** Slot `j` comes before slot `k` in order of distance; ties go to the
      earlier slot. */
  predicate Precedes(dist: seq<real>, j: int, k: int)
    requires 0 <= j < |dist| && 0 <= k < |dist|
  {
    dist[j] < dist[k] || (dist[j] == dist[k] && j < k)
  }

  /** `ka` is the nearest denser slot among slots below `upto`. */
  predicate NearestBelow(row: seq<int>, dist: seq<real>, phi: seq<real>, i: int, ka: int, upto: int)
    requires 0 <= i < |phi| && |dist| == |row|
  {
    && Denser(row, phi, i, ka) && ka < upto
    && forall k :: 1 <= k < upto && k < |row| && k != ka && Denser(row, phi, i, k) ==> Precedes(dist, ka, k)
  }

  /** `kb` is the nearest denser slot below `upto` other than `ka`. */
  predicate SecondBelow(row: seq<int>, dist: seq<real>, phi: seq<real>, i: int, ka: int, kb: int, upto: int)
    requires 0 <= i < |phi| && |dist| == |row|
  {
    && Denser(row, phi, i, kb) && kb < upto && kb != ka
    && forall k :: 1 <= k < upto && k < |row| && k != ka && k != kb && Denser(row, phi, i, k) ==> Precedes(dist, kb, k)
  }

  /** The nearest denser slot of the whole row: `ngb_lower[0]` after the
      distance sort (CloudPhinder.py:222-223). */
  predicate IsNearest(row: seq<int>, dist: seq<real>, phi: seq<real>, i: int, ka: int)
    requires 0 <= i < |phi| && |dist| == |row|
  {
    NearestBelow(row, dist, phi, i, ka, |row|)
  }

  /** The second nearest denser slot of the whole row: `ngb_lower[1]`. */
  predicate IsSecond(row: seq<int>, dist: seq<real>, phi: seq<real>, i: int, ka: int, kb: int)
    requires 0 <= i < |phi| && |dist| == |row|
  {
    SecondBelow(row, dist, phi, i, ka, kb, |row|)
  }

  /** The state of the scan after slots `1..k-1`: `nlower` denser slots
      seen, `ka` the nearest of them once there is one, `kb` the second once
      there are two. */
  ghost predicate Scanned(row: seq<int>, dist: seq<real>, phi: seq<real>, i: int, k: int, nlower: nat, ka: int, kb: int)
    requires 0 <= i < |phi| && |dist| == |row|
  {
    && 1 <= k <= |row|
    && nlower == CountDenser(row, phi, i, k)
    && (nlower >= 1 ==> NearestBelow(row, dist, phi, i, ka, k))
    && (nlower == 1 ==> forall j :: 1 <= j < k && j != ka ==> !Denser(row, phi, i, j))
    && (nlower >= 2 ==> SecondBelow(row, dist, phi, i, ka, kb, k))
  }

  lemma ScannedSkip(row: seq<int>, dist: seq<real>, phi: seq<real>, i: int, k: int, nlower: nat, ka: int, kb: int)
    requires 0 <= i < |phi| && |dist| == |row| && k < |row|
    requires Scanned(row, dist, phi, i, k, nlower, ka, kb) && !Denser(row, phi, i, k)
    ensures Scanned(row, dist, phi, i, k + 1, nlower, ka, kb)
  {
  }

  lemma ScannedFirst(row: seq<int>, dist: seq<real>, phi: seq<real>, i: int, k: int, ka: int, kb: int)
    requires 0 <= i < |phi| && |dist| == |row| && k < |row|
    requires Scanned(row, dist, phi, i, k, 0, ka, kb) && Denser(row, phi, i, k)
    ensures Scanned(row, dist, phi, i, k + 1, 1, k, kb)
  {
  }

  lemma ScannedNearer(row: seq<int>, dist: seq<real>, phi: seq<real>, i: int, k: int, nlower: nat, ka: int, kb: int)
    requires 0 <= i < |phi| && |dist| == |row| && k < |row| && nlower >= 1
    requires Scanned(row, dist, phi, i, k, nlower, ka, kb) && Denser(row, phi, i, k)
    requires Precedes(dist, k, ka)
    ensures Scanned(row, dist, phi, i, k + 1, nlower + 1, k, ka)
  {
  }

  lemma ScannedSecond(row: seq<int>, dist: seq<real>, phi: seq<real>, i: int, k: int, nlower: nat, ka: int, kb: int)
    requires 0 <= i < |phi| && |dist| == |row| && k < |row| && nlower >= 1
    requires Scanned(row, dist, phi, i, k, nlower, ka, kb) && Denser(row, phi, i, k)
    requires !Precedes(dist, k, ka) && (nlower == 1 || Precedes(dist, k, kb))
    ensures Scanned(row, dist, phi, i, k + 1, nlower + 1, ka, k)
  {
  }

  lemma ScannedFar(row: seq<int>, dist: seq<real>, phi: seq<real>, i: int, k: int, nlower: nat, ka: int, kb: int)
    requires 0 <= i < |phi| && |dist| == |row| && k < |row| && nlower >= 2
    requires Scanned(row, dist, phi, i, k, nlower, ka, kb) && Denser(row, phi, i, k)
    requires !Precedes(dist, k, ka) && !Precedes(dist, k, kb)
    ensures Scanned(row, dist, phi, i, k + 1, nlower + 1, ka, kb)
  {
  }

  /** Counts the denser neighbours of `i` and finds the nearest two
      (CloudPhinder.py:218-226). */
  method NearestDenser(row: seq<int>, dist: seq<real>, phi: seq<real>, i: int) returns (nlower: nat, ka: int, kb: int)
    requires RowIn(row, |phi|) && 0 <= i < |phi| && |dist| == |row|
    ensures nlower == CountDenser(row, phi, i, |row|)
    ensures nlower >= 1 ==> IsNearest(row, dist, phi, i, ka)
    ensures nlower >= 2 ==> IsSecond(row, dist, phi, i, ka, kb)
  {
    nlower, ka, kb := 0, 0, 0;
    if |row| == 0 {
      return;
    }
    var k := 1;
    while k < |row|
      invariant Scanned(row, dist, phi, i, k, nlower, ka, kb)
    {
      if phi[row[k]] < phi[i] {
        if nlower == 0 {
          ScannedFirst(row, dist, phi, i, k, ka, kb);
          ka := k;
        } else if Precedes(dist, k, ka) {
          ScannedNearer(row, dist, phi, i, k, nlower, ka, kb);
          kb, ka := ka, k;
        } else if nlower == 1 || Precedes(dist, k, kb) {
          ScannedSecond(row, dist, phi, i, k, nlower, ka, kb);
          kb := k;
        } else {
          ScannedFar(row, dist, phi, i, k, nlower, ka, kb);
        }
        nlower := nlower + 1;
      } else {
        ScannedSkip(row, dist, phi, i, k, nlower, ka, kb);
      }
      k := k + 1;
    }
  }

  lemma {:induction false} NonIncreasingFar(rho: seq<real>, a: int, b: int)
    requires NonIncreasing(rho) && 0 <= a <= b < |rho|
    ensures rho[a] >= rho[b]
    decreases b - a
  {
    if a < b {
      NonIncreasingFar(rho, a + 1, b);
    }
  }

  /** With densities in decreasing order and `phi = -rho`, every denser
      neighbour of `i` has a smaller index, so it was processed before `i`. */
  lemma DenserIsEarlier(row: seq<int>, rho: seq<real>, i: int, k: int)
    requires NonIncreasing(rho) && 0 <= i < |rho|
    requires Denser(row, NegatedDensity(rho), i, k)
    ensures row[k] < i
  {
    if row[k] >= i {
      NonIncreasingFar(rho, i, row[k]);
    }
  }
}
