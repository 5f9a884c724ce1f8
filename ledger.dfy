/** Per-group energy bookkeeping of the cloud finder: 3-vectors, the
    single-particle kinetic and energy increments, the relative-motion term
    of a merge, mass-weighted blending of centres, and the virial test.

    Products that several lemmas talk about are given names (`Sq`,
    `Weighted`, `InternalEnergy`, `ReducedMass`, `Mix`), so that facts about
    them combine linearly. */
module Ledger {

  /** A position or velocity in three dimensions. */
  datatype Vec3 = Vec3(x: real, y: real, z: real) {
    function Add(o: Vec3): Vec3 { Vec3(x + o.x, y + o.y, z + o.z) }
    function Sub(o: Vec3): Vec3 { Vec3(x - o.x, y - o.y, z - o.z) }
    function Scale(k: real): Vec3 { Vec3(k * x, k * y, k * z) }
    function Div(k: real): Vec3 requires k != 0.0 { Vec3(x / k, y / k, z / k) }
    function Dot(o: Vec3): real { x * o.x + y * o.y + z * o.z }
  }

  const Zero: Vec3 := Vec3(0.0, 0.0, 0.0)

  function Abs(r: real): real { if r < 0.0 then -r else r }

  lemma SquareNonNegative(a: real)
    ensures a * a >= 0.0
  {
    if a < 0.0 {
      var b := -a;
      assert a * a == b * b;
    }
  }

  function Sq(a: real): (r: real)
    ensures r >= 0.0
  {
    SquareNonNegative(a);
    a * a
  }

  /** Squared length, the `np.sum(d**2)` of the source. */
  function SqNorm(d: Vec3): (r: real)
    ensures r >= 0.0
  {
    Sq(d.x) + Sq(d.y) + Sq(d.z)
  }

  /** `k` times the squared length of `d`. */
  function Weighted(k: real, d: Vec3): real {
    k * SqNorm(d)
  }

  lemma WeightedNonNegative(k: real, d: Vec3)
    requires k >= 0.0
    ensures Weighted(k, d) >= 0.0
  {
  }

  /** `k` times the square of `a`: one coordinate of `Weighted`. */
  function WeightedSq(k: real, a: real): real {
    k * Sq(a)
  }

  /** Thermal energy `m*u` of a particle of mass `m` and specific internal
      energy `u`. */
  function InternalEnergy(m: real, u: real): real {
    m * u
  }

  /** Potential energy `m*phi` of a particle of mass `m` at potential `phi`. */
  function Weigh(m: real, phi: real): real {
    m * phi
  }

  lemma WeighAdd(m: real, x: real, y: real, z: real)
    requires z == x + y
    ensures Weigh(m, z) == Weigh(m, x) + Weigh(m, y)
  {
  }

  /** The reduced mass `ma*mb/(ma+mb)` of two positive masses. */
  function ReducedMass(ma: real, mb: real): (r: real)
    requires ma > 0.0 && mb > 0.0
    ensures r > 0.0
  {
    var p := ma * mb;
    assert p > 0.0;
    p / (ma + mb)
  }

  /** The relative-motion kinetic energy of two bodies, `0.5*mu*|va-vb|^2`
      (CloudPhinder.py:265-267). */
  function RelativeKE(ma: real, mb: real, va: Vec3, vb: Vec3): (r: real)
    requires ma > 0.0 && mb > 0.0
    ensures r >= 0.0
  {
    0.5 * Weighted(ReducedMass(ma, mb), va.Sub(vb))
  }

  /** KE_Increment: kinetic plus thermal energy that particle `i` (mass `mi`,
      velocity `vi`, specific internal energy `ui`) adds to a group of mass
      `mtot` moving with centre-of-mass velocity `vCom`. It is never less than
      the particle's own thermal energy. */
  function KEIncrement(mi: real, vi: Vec3, ui: real, vCom: Vec3, mtot: real): (r: real)
    requires mi > 0.0 && mtot > 0.0
    ensures r >= InternalEnergy(mi, ui)
  {
    var vSqr := SqNorm(vi.Sub(vCom));
    var mu := ReducedMass(mi, mtot);
    0.5 * (mu * vSqr) + InternalEnergy(mi, ui)
  }

  /** The arithmetic of EnergyIncrement: the kinetic increment plus `mi`
      times the potential `phi` at the particle due to the group. */
  function EnergyIncrement(mi: real, vi: Vec3, ui: real, vCom: Vec3, mtot: real, phi: real): (r: real)
    requires mi > 0.0 && mtot > 0.0
    ensures r - KEIncrement(mi, vi, ui, vCom, mtot) == Weigh(mi, phi)
  {
    var vSqr := SqNorm(vi.Sub(vCom));
    var mu := ReducedMass(mi, mtot);
    0.5 * (mu * vSqr) + InternalEnergy(mi, ui) + Weigh(mi, phi)
  }

  /** The mass-weighted average `(ma*a + mb*b)/(ma+mb)` of two numbers. */
  function Mix(ma: real, a: real, mb: real, b: real): real
    requires ma + mb != 0.0
  {
    (ma * a + mb * b) / (ma + mb)
  }

  /** The mass-weighted average of two vectors, used for the centre of mass
      and the centre-of-mass velocity (CloudPhinder.py:297-298, 327). */
  function Blend(ma: real, a: Vec3, mb: real, b: Vec3): (r: Vec3)
    requires ma + mb != 0.0
    ensures r.Scale(ma + mb) == a.Scale(ma).Add(b.Scale(mb))
  {
    Vec3(Mix(ma, a.x, mb, b.x), Mix(ma, a.y, mb, b.y), Mix(ma, a.z, mb, b.z))
  }

  /** The virial test: `|2*KE/|E-KE|| < alpha_crit`. When `E == KE` the
      floating-point quotient is infinite or NaN and the comparison is false. */
  function IsBound(ke: real, e: real, alphaCrit: real): (bound: bool)
    ensures bound <==> e != ke && Abs(2.0 * ke) < alphaCrit * Abs(e - ke)
  {
    e != ke && Abs(2.0 * ke / Abs(e - ke)) < alphaCrit
  }

  /** Swapping the two bodies changes neither the blend nor the relative
      kinetic energy. */
  lemma BlendSymmetric(ma: real, a: Vec3, mb: real, b: Vec3)
    requires ma > 0.0 && mb > 0.0
    ensures Blend(ma, a, mb, b) == Blend(mb, b, ma, a)
    ensures RelativeKE(ma, mb, a, b) == RelativeKE(mb, ma, b, a)
  {
    assert ReducedMass(ma, mb) == ReducedMass(mb, ma);
    assert Sq(a.x - b.x) == Sq(b.x - a.x);
    assert Sq(a.y - b.y) == Sq(b.y - a.y);
    assert Sq(a.z - b.z) == Sq(b.z - a.z);
  }

  /** KE_Increment is the relative kinetic energy of the particle and the
      group, plus the particle's thermal energy. */
  lemma KEIncrementRelative(mi: real, vi: Vec3, ui: real, vCom: Vec3, mtot: real)
    requires mi > 0.0 && mtot > 0.0
    ensures KEIncrement(mi, vi, ui, vCom, mtot) == RelativeKE(mtot, mi, vCom, vi) + InternalEnergy(mi, ui)
  {
    BlendSymmetric(mtot, vCom, mi, vi);
  }

  lemma WeightedSplit(k: real, d: Vec3)
    ensures Weighted(k, d) == WeightedSq(k, d.x) + WeightedSq(k, d.y) + WeightedSq(k, d.z)
  {
  }

  /** The algebra behind `BlendSpread1`, with the mean `c` and the reduced
      mass `k` given by their defining products. */
  lemma MixSpread(ma: real, a: real, mb: real, b: real, mm: real, c: real, k: real)
    requires mm == ma + mb && mm != 0.0
    requires c * mm == ma * a + mb * b && k * mm == ma * mb
    ensures ma * (a * a) + mb * (b * b) - mm * (c * c) == k * ((a - b) * (a - b))
  {
    assert mm * (ma * (a * a) + mb * (b * b)) - (ma * a + mb * b) * (ma * a + mb * b)
        == ma * mb * ((a - b) * (a - b));
    calc {
      mm * (ma * (a * a) + mb * (b * b) - mm * (c * c));
      mm * (ma * (a * a) + mb * (b * b)) - (c * mm) * (c * mm);
      mm * (ma * (a * a) + mb * (b * b)) - (ma * a + mb * b) * (ma * a + mb * b);
      ma * mb * ((a - b) * (a - b));
      (k * mm) * ((a - b) * (a - b));
      mm * (k * ((a - b) * (a - b)));
    }
  }

  /** One coordinate of the parallel-axis identity: the spread of two
      weighted values about their weighted mean is the reduced mass times
      their squared difference. */
  lemma BlendSpread1(ma: real, a: real, mb: real, b: real, mm: real, c: real)
    requires ma > 0.0 && mb > 0.0 && mm == ma + mb
    requires c == Mix(ma, a, mb, b)
    ensures WeightedSq(ma, a) + WeightedSq(mb, b) - WeightedSq(mm, c)
         == WeightedSq(ReducedMass(ma, mb), a - b)
  {
    var k := ReducedMass(ma, mb);
    assert c * mm == ma * a + mb * b;
    assert k * mm == ma * mb;
    MixSpread(ma, a, mb, b, mm, c, k);
  }

  /** The parallel-axis identity for velocities: the spread of two weighted
      velocities about their blend `vv` (total mass `mm`) equals twice their
      relative kinetic energy. */
  lemma BlendSpread(ma: real, va: Vec3, mb: real, vb: Vec3, mm: real, vv: Vec3)
    requires ma > 0.0 && mb > 0.0
    requires mm == ma + mb && vv == Blend(ma, va, mb, vb)
    ensures Weighted(mm, vv) == Weighted(ma, va) + Weighted(mb, vb) - 2.0 * RelativeKE(ma, mb, va, vb)
  {
    var d := va.Sub(vb);
    BlendSpread1(ma, va.x, mb, vb.x, mm, vv.x);
    BlendSpread1(ma, va.y, mb, vb.y, mm, vv.y);
    BlendSpread1(ma, va.z, mb, vb.z, mm, vv.z);
    WeightedSplit(ma, va);
    WeightedSplit(mb, vb);
    WeightedSplit(mm, vv);
    WeightedSplit(ReducedMass(ma, mb), d);
  }

  /** `k` spread over a sum of weights. */
  lemma WeightedAdd(a: real, b: real, k: real, d: Vec3)
    requires k == a + b
    ensures Weighted(k, d) == Weighted(a, d) + Weighted(b, d)
  {
  }

  /** Expansion of the weighted squared distance from a centre `c`. */
  lemma WeightedAbout(m: real, v: Vec3, c: Vec3)
    ensures Weighted(m, v.Sub(c)) == Weighted(m, v) - 2.0 * c.Dot(v.Scale(m)) + Weighted(m, c)
  {
    assert Sq(v.x - c.x) == Sq(v.x) - 2.0 * (c.x * v.x) + Sq(c.x);
    assert Sq(v.y - c.y) == Sq(v.y) - 2.0 * (c.y * v.y) + Sq(c.y);
    assert Sq(v.z - c.z) == Sq(v.z) - 2.0 * (c.z * v.z) + Sq(c.z);
    assert c.Dot(v.Scale(m)) == m * (c.x * v.x + c.y * v.y + c.z * v.z);
  }

  /** For `p == c*m`, `c.p == m|c|^2`. */
  lemma DotScaled(c: Vec3, m: real, p: Vec3)
    requires c.Scale(m) == p
    ensures c.Dot(p) == Weighted(m, c)
  {
    assert Sq(c.x) == c.x * c.x && Sq(c.y) == c.y * c.y && Sq(c.z) == c.z * c.z;
  }

  lemma DotAdd(c: Vec3, a: Vec3, b: Vec3)
    ensures c.Dot(a.Add(b)) == c.Dot(a) + c.Dot(b)
  {
  }
}
