/** The per-particle arrays the assembler reads, and the mass, momentum and
    energy sums over a list of particle indices. `KineticEnergy` is the
    direct definition of a group's internal kinetic plus thermal energy
    (velocities taken relative to the mass-weighted mean velocity); the
    lemmas here show how it changes when two lists are concatenated, which is
    what the assembler's incremental ledger relies on. */
module Particles {
  import opened Ledger

  /** Positions, masses, velocities, specific internal energies and densities,
      one entry per particle. */
  datatype Particles = Particles(x: seq<Vec3>, m: seq<real>, v: seq<Vec3>, u: seq<real>, rho: seq<real>)

  /** All arrays have one entry per particle and every mass is positive. */
  ghost predicate WellFormed(ps: Particles) {
    && |ps.x| == |ps.m| && |ps.v| == |ps.m| && |ps.u| == |ps.m| && |ps.rho| == |ps.m|
    && forall p :: 0 <= p < |ps.m| ==> ps.m[p] > 0.0
  }

  /** Every entry of `s` indexes a particle. */
  predicate Within(s: seq<int>, n: int) {
    forall k :: 0 <= k < |s| ==> 0 <= s[k] < n
  }

  lemma WithinConcat(a: seq<int>, b: seq<int>, n: int)
    requires Within(a, n) && Within(b, n)
    ensures Within(a + b, n)
  {
  }

  lemma WithinPrefix(s: seq<int>, k: int, n: int)
    requires Within(s, n) && 0 <= k <= |s|
    ensures Within(s[..k], n)
  {
  }

  /** Total mass of the listed particles. */
  function Mass(ps: Particles, s: seq<int>): (r: real)
    requires WellFormed(ps) && Within(s, |ps.m|)
    ensures r >= 0.0
    ensures s != [] ==> r > 0.0
    decreases |s|
  {
    if s == [] then 0.0 else Mass(ps, s[..|s| - 1]) + ps.m[s[|s| - 1]]
  }

  /** Total momentum of the listed particles. */
  function Momentum(ps: Particles, s: seq<int>): Vec3
    requires WellFormed(ps) && Within(s, |ps.m|)
    decreases |s|
  {
    if s == [] then Zero
    else Momentum(ps, s[..|s| - 1]).Add(ps.v[s[|s| - 1]].Scale(ps.m[s[|s| - 1]]))
  }

  /** Sum of mass times squared speed over the listed particles. */
  function SpeedMoment(ps: Particles, s: seq<int>): real
    requires WellFormed(ps) && Within(s, |ps.m|)
    decreases |s|
  {
    if s == [] then 0.0
    else SpeedMoment(ps, s[..|s| - 1]) + Weighted(ps.m[s[|s| - 1]], ps.v[s[|s| - 1]])
  }

  /** Total thermal energy of the listed particles. */
  function Thermal(ps: Particles, s: seq<int>): real
    requires WellFormed(ps) && Within(s, |ps.m|)
    decreases |s|
  {
    if s == [] then 0.0
    else Thermal(ps, s[..|s| - 1]) + InternalEnergy(ps.m[s[|s| - 1]], ps.u[s[|s| - 1]])
  }

  /** Kinetic plus thermal energy of the listed particles with velocities
      measured relative to `c`: the sum of `m*(0.5*|v-c|^2 + u)`. */
  function Spread(ps: Particles, s: seq<int>, c: Vec3): real
    requires WellFormed(ps) && Within(s, |ps.m|)
    decreases |s|
  {
    if s == [] then 0.0
    else
      var p := s[|s| - 1];
      Spread(ps, s[..|s| - 1], c) + (0.5 * Weighted(ps.m[p], ps.v[p].Sub(c)) + InternalEnergy(ps.m[p], ps.u[p]))
  }

  /** The mass-weighted mean velocity of a non-empty list. */
  function MeanVelocity(ps: Particles, s: seq<int>): (r: Vec3)
    requires WellFormed(ps) && Within(s, |ps.m|) && s != []
    ensures r.Scale(Mass(ps, s)) == Momentum(ps, s)
  {
    var mm := Mass(ps, s);
    var pp := Momentum(ps, s);
    pp.Div(mm)
  }

  /** KineticEnergy at CloudPhinder.py:114-118: kinetic energy about the mean
      velocity plus thermal energy. */
  function KineticEnergy(ps: Particles, s: seq<int>): real
    requires WellFormed(ps) && Within(s, |ps.m|) && s != []
  {
    Spread(ps, s, MeanVelocity(ps, s))
  }

  /** Motion about any centre only adds to the thermal energy; with the
      mean velocity as centre, `KineticEnergy` is never below `Thermal`. */
  lemma {:induction false} SpreadAtLeastThermal(ps: Particles, s: seq<int>, c: Vec3)
    requires WellFormed(ps) && Within(s, |ps.m|)
    ensures Spread(ps, s, c) >= Thermal(ps, s)
    decreases |s|
  {
    if s != [] {
      var p := s[|s| - 1];
      SpreadAtLeastThermal(ps, s[..|s| - 1], c);
      WeightedNonNegative(ps.m[p], ps.v[p].Sub(c));
    }
  }

  /** Scaling by a non-zero number is injective. */
  lemma ScaleCancel(a: Vec3, b: Vec3, k: real)
    requires k != 0.0 && a.Scale(k) == b.Scale(k)
    ensures a == b
  {
    assert a.x * k / k == b.x * k / k;
    assert a.y * k / k == b.y * k / k;
    assert a.z * k / k == b.z * k / k;
  }

  lemma Prefix(s: seq<int>, a: seq<int>, p: int)
    requires s == a + [p]
    ensures s[..|s| - 1] == a && s[|s| - 1] == p
  {
  }

  lemma {:induction false} MassConcat(ps: Particles, a: seq<int>, b: seq<int>)
    requires WellFormed(ps) && Within(a, |ps.m|) && Within(b, |ps.m|) && Within(a + b, |ps.m|)
    ensures Mass(ps, a + b) == Mass(ps, a) + Mass(ps, b)
    decreases |b|
  {
    if b == [] {
      assert a + b == a;
    } else {
      var b0, p := b[..|b| - 1], b[|b| - 1];
      assert a + b == (a + b0) + [p];
      Prefix(a + b, a + b0, p);
      WithinPrefix(b, |b| - 1, |ps.m|);
      WithinPrefix(a + b, |a + b| - 1, |ps.m|);
      MassConcat(ps, a, b0);
    }
  }

  lemma {:induction false} MomentumConcat(ps: Particles, a: seq<int>, b: seq<int>)
    requires WellFormed(ps) && Within(a, |ps.m|) && Within(b, |ps.m|) && Within(a + b, |ps.m|)
    ensures Momentum(ps, a + b) == Momentum(ps, a).Add(Momentum(ps, b))
    decreases |b|
  {
    if b == [] {
      assert a + b == a;
    } else {
      var b0, p := b[..|b| - 1], b[|b| - 1];
      assert a + b == (a + b0) + [p];
      Prefix(a + b, a + b0, p);
      WithinPrefix(b, |b| - 1, |ps.m|);
      WithinPrefix(a + b, |a + b| - 1, |ps.m|);
      MomentumConcat(ps, a, b0);
    }
  }

  lemma {:induction false} SpeedMomentConcat(ps: Particles, a: seq<int>, b: seq<int>)
    requires WellFormed(ps) && Within(a, |ps.m|) && Within(b, |ps.m|) && Within(a + b, |ps.m|)
    ensures SpeedMoment(ps, a + b) == SpeedMoment(ps, a) + SpeedMoment(ps, b)
    decreases |b|
  {
    if b == [] {
      assert a + b == a;
    } else {
      var b0, p := b[..|b| - 1], b[|b| - 1];
      assert a + b == (a + b0) + [p];
      Prefix(a + b, a + b0, p);
      WithinPrefix(b, |b| - 1, |ps.m|);
      WithinPrefix(a + b, |a + b| - 1, |ps.m|);
      SpeedMomentConcat(ps, a, b0);
    }
  }

  lemma {:induction false} ThermalConcat(ps: Particles, a: seq<int>, b: seq<int>)
    requires WellFormed(ps) && Within(a, |ps.m|) && Within(b, |ps.m|) && Within(a + b, |ps.m|)
    ensures Thermal(ps, a + b) == Thermal(ps, a) + Thermal(ps, b)
    decreases |b|
  {
    if b == [] {
      assert a + b == a;
    } else {
      var b0, p := b[..|b| - 1], b[|b| - 1];
      assert a + b == (a + b0) + [p];
      Prefix(a + b, a + b0, p);
      WithinPrefix(b, |b| - 1, |ps.m|);
      WithinPrefix(a + b, |a + b| - 1, |ps.m|);
      ThermalConcat(ps, a, b0);
    }
  }

  /** `Spread` about any centre, written with the moments of the list. */
  lemma {:induction false} SpreadMoments(ps: Particles, s: seq<int>, c: Vec3)
    requires WellFormed(ps) && Within(s, |ps.m|)
    ensures Spread(ps, s, c)
         == 0.5 * (SpeedMoment(ps, s) - 2.0 * c.Dot(Momentum(ps, s)) + Weighted(Mass(ps, s), c)) + Thermal(ps, s)
    decreases |s|
  {
    if s == [] {
      assert Weighted(0.0, c) == 0.0;
    } else {
      var s0, p := s[..|s| - 1], s[|s| - 1];
      WithinPrefix(s, |s| - 1, |ps.m|);
      SpreadMoments(ps, s0, c);
      WeightedAbout(ps.m[p], ps.v[p], c);
      DotAdd(c, Momentum(ps, s0), ps.v[p].Scale(ps.m[p]));
      WeightedAdd(Mass(ps, s0), ps.m[p], Mass(ps, s), c);
    }
  }

  /** The kinetic energy about the mean velocity in terms of the moments. */
  lemma KineticEnergyMoments(ps: Particles, s: seq<int>)
    requires WellFormed(ps) && Within(s, |ps.m|) && s != []
    ensures KineticEnergy(ps, s)
         == 0.5 * (SpeedMoment(ps, s) - Weighted(Mass(ps, s), MeanVelocity(ps, s))) + Thermal(ps, s)
  {
    SpreadMoments(ps, s, MeanVelocity(ps, s));
    DotScaled(MeanVelocity(ps, s), Mass(ps, s), Momentum(ps, s));
  }

  /** A single particle has no internal motion: its energy is purely thermal. */
  lemma KineticEnergySingle(ps: Particles, p: int)
    requires WellFormed(ps) && 0 <= p < |ps.m|
    ensures Mass(ps, [p]) == ps.m[p]
    ensures MeanVelocity(ps, [p]) == ps.v[p]
    ensures KineticEnergy(ps, [p]) == InternalEnergy(ps.m[p], ps.u[p])
  {
    var s := [p];
    Prefix(s, [], p);
    var mp, vp := ps.m[p], ps.v[p];
    assert Mass(ps, s) == mp;
    assert Momentum(ps, s) == Zero.Add(vp.Scale(mp));
    var w := MeanVelocity(ps, s);
    assert w.Scale(mp) == vp.Scale(mp);
    ScaleCancel(w, vp, mp);
    assert vp.Sub(w) == Zero;
    assert Weighted(mp, Zero) == 0.0;
    assert Spread(ps, [], w) == 0.0;
    assert Spread(ps, s, w) == 0.0 + (0.5 * Weighted(mp, vp.Sub(w)) + InternalEnergy(mp, ps.u[p]));
  }

  /** The mean velocity of a concatenation is the mass-weighted blend of the
      parts' mean velocities. */
  lemma MeanVelocityMerge(ps: Particles, a: seq<int>, b: seq<int>)
    requires WellFormed(ps) && Within(a, |ps.m|) && Within(b, |ps.m|) && a != [] && b != []
    requires Within(a + b, |ps.m|)
    ensures Mass(ps, a + b) == Mass(ps, a) + Mass(ps, b)
    ensures MeanVelocity(ps, a + b)
         == Blend(Mass(ps, a), MeanVelocity(ps, a), Mass(ps, b), MeanVelocity(ps, b))
  {
    MassConcat(ps, a, b);
    MomentumConcat(ps, a, b);
    var ma, mb := Mass(ps, a), Mass(ps, b);
    var w := Blend(ma, MeanVelocity(ps, a), mb, MeanVelocity(ps, b));
    assert w.Scale(ma + mb) == Momentum(ps, a + b);
    ScaleCancel(MeanVelocity(ps, a + b), w, ma + mb);
  }

  /** Joining two groups: the merged kinetic energy is the sum of the parts
      plus the kinetic energy of their relative motion. */
  lemma KineticEnergyMerge(ps: Particles, a: seq<int>, b: seq<int>)
    requires WellFormed(ps) && Within(a, |ps.m|) && Within(b, |ps.m|) && a != [] && b != []
    requires Within(a + b, |ps.m|)
    ensures KineticEnergy(ps, a + b)
         == KineticEnergy(ps, a) + KineticEnergy(ps, b)
            + RelativeKE(Mass(ps, a), Mass(ps, b), MeanVelocity(ps, a), MeanVelocity(ps, b))
  {
    MeanVelocityMerge(ps, a, b);
    BlendSpread(Mass(ps, a), MeanVelocity(ps, a), Mass(ps, b), MeanVelocity(ps, b),
                Mass(ps, a + b), MeanVelocity(ps, a + b));
    KineticEnergyMoments(ps, a + b);
    KineticEnergyMoments(ps, a);
    KineticEnergyMoments(ps, b);
    SpeedMomentConcat(ps, a, b);
    ThermalConcat(ps, a, b);
  }

  /** Adding one particle to a group, as the assembler's ledger does it: the
      kinetic energy grows by KE_Increment computed with the group's previous
      mass and mean velocity, and the new mean velocity is the blend. */
  lemma KineticEnergyAttach(ps: Particles, s: seq<int>, p: int)
    requires WellFormed(ps) && Within(s, |ps.m|) && s != [] && 0 <= p < |ps.m|
    requires Within(s + [p], |ps.m|)
    ensures Mass(ps, s + [p]) == Mass(ps, s) + ps.m[p]
    ensures MeanVelocity(ps, s + [p]) == Blend(ps.m[p], ps.v[p], Mass(ps, s), MeanVelocity(ps, s))
    ensures KineticEnergy(ps, s + [p])
         == KineticEnergy(ps, s) + KEIncrement(ps.m[p], ps.v[p], ps.u[p], MeanVelocity(ps, s), Mass(ps, s))
  {
    var ms, vs, mp, vp := Mass(ps, s), MeanVelocity(ps, s), ps.m[p], ps.v[p];
    KineticEnergySingle(ps, p);
    MeanVelocityMerge(ps, s, [p]);
    BlendSymmetric(ms, vs, mp, vp);
    KineticEnergyMerge(ps, s, [p]);
    KEIncrementRelative(mp, vp, ps.u[p], vs, ms);
  }
}
