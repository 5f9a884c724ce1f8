/** ParticleGroups (CloudPhinder.py:171-345): the density-ordered group
    assembler. Particles are visited in index order (decreasing density);
    each one founds a group, joins the group of its nearest denser
    neighbour, or, at a saddle between two groups, merges them into the
    heavier and then joins.

    The eight dictionaries the source keeps per group label travel between
    the steps as one `Dicts` value; the three per-particle label arrays
    (`assigned_group`, `assigned_bound_group`, `largest_assigned_group`)
    are arrays updated in place. */
module Assembly {
  import opened Ledger
  import opened Particles
  import opened Gravity
  import opened Neighbours
  import opened Groups
  import opened Extract
  import opened Linking

  /** What ParticleGroups needs of its inputs: consistent particle arrays
      with positive masses, densities already sorted in decreasing order,
      and one neighbour row per particle whose entries index a particle or
      are the sentinel `n`, with a distance per entry. */
  ghost predicate Inputs(ps: Particles, ngb: seq<seq<int>>, ngbDist: seq<seq<real>>) {
    && WellFormed(ps) && NonIncreasing(ps.rho)
    && Rows(ngb, ngbDist, |ps.m|)
    && forall i | 0 <= i < |ngb| :: RowIn(ngb[i], |ps.m| + 1)
  }

  /** `arr[s] = val` with a list of indices (CloudPhinder.py:307-308, 326). */
  method StampArray(arr: array<int>, s: seq<int>, val: int)
    requires forall j :: 0 <= j < |s| ==> 0 <= s[j] < arr.Length
    modifies arr
    ensures arr[..] == Stamp(old(arr[..]), s, val)
  {
    forall j | 0 <= j < |s| {
      arr[s[j]] := val;
    }
  }

  /** `arr[arr == from] = to` (CloudPhinder.py:302). */
  method RelabelArray(arr: array<int>, from: int, to: int)
    modifies arr
    ensures arr[..] == Relabel(old(arr[..]), from, to)
  {
    forall j | 0 <= j < arr.Length && arr[j] == from {
      arr[j] := to;
    }
  }

  /** The attach stamp (CloudPhinder.py:323-326): `stamped` is the virial
      test on group `g` of `d`; when it holds, every member of `g` takes `g`
      as bound label and particle `i` records the size of `g`; otherwise
      both arrays are left as they were. */
  ghost predicate JoinStamp(d: Dicts, g: int, alphaCrit: real, stamped: bool, i: int,
                            bound: seq<int>, largest: seq<int>, bound': seq<int>, largest': seq<int>) {
    && g in d.groups && g in d.groupKE && g in d.groupEnergy && 0 <= i < |largest|
    && stamped == IsBound(d.groupKE[g], d.groupEnergy[g], alphaCrit)
    && bound' == StampIf(bound, stamped, d.groups[g], g)
    && largest' == RecordIf(largest, stamped, i, |d.groups[g]|)
  }

  /** The merge stamp (CloudPhinder.py:305-308): `stamped` is the virial
      test on the merged group `a` of `d`; when it holds, every member takes
      `a` as bound label and records the merged size. */
  ghost predicate MergeStamp(d: Dicts, a: int, alphaCrit: real, stamped: bool,
                             bound: seq<int>, largest: seq<int>, bound': seq<int>, largest': seq<int>) {
    && a in d.groups && a in d.groupKE && a in d.groupEnergy
    && stamped == IsBound(d.groupKE[a], d.groupEnergy[a], alphaCrit)
    && bound' == StampIf(bound, stamped, d.groups[a], a)
    && largest' == StampIf(largest, stamped, d.groups[a], |d.groups[a]|)
  }

  /** A merge into `a` (dictionaries `m`) then an attach to `a` (dictionaries
      `d`): the merge stamp followed by the attach stamp. */
  ghost predicate SaddleStamps(m: Dicts, d: Dicts, a: int, alphaCrit: real, mergeStamped: bool, stamped: bool, i: int,
                               bound: seq<int>, largest: seq<int>, bound': seq<int>, largest': seq<int>) {
    && a in m.groups
    && MergeStamp(m, a, alphaCrit, mergeStamped, bound, largest,
                  StampIf(bound, mergeStamped, m.groups[a], a), StampIf(largest, mergeStamped, m.groups[a], |m.groups[a]|))
    && JoinStamp(d, a, alphaCrit, stamped, i,
                 StampIf(bound, mergeStamped, m.groups[a], a), StampIf(largest, mergeStamped, m.groups[a], |m.groups[a]|),
                 bound', largest')
  }

  /** Group `g` has ledger entries that pass the virial test of
      CloudPhinder.py:305 and 323. */
  ghost predicate Virial(d: Dicts, g: int, alphaCrit: real) {
    g in d.groupKE && g in d.groupEnergy && IsBound(d.groupKE[g], d.groupEnergy[g], alphaCrit)
  }

  /** Every live group that passes the virial test has each of its members
      stamped with the group's label as bound label. */
  ghost predicate BoundLive(d: Dicts, alphaCrit: real, bound: seq<int>) {
    forall g, t | g in d.groups && Virial(d, g, alphaCrit) && 0 <= t < |d.groups[g]| ::
      0 <= d.groups[g][t] < |bound| && bound[d.groups[g][t]] == g
  }

  /** A founder's ledger has equal kinetic and total energy, so it never
      passes the virial test, and the other groups keep theirs. */
  lemma BoundLiveFound(ps: Particles, d: Dicts, i: int, alphaCrit: real, bound: seq<int>)
    requires WellFormed(ps) && 0 <= i < |ps.m|
    requires BoundLive(d, alphaCrit, bound)
    ensures !Virial(Founded(ps, d, i), i, alphaCrit)
    ensures BoundLive(Founded(ps, d, i), alphaCrit, bound)
  {
    var d' := Founded(ps, d, i);
    forall g, t | g in d'.groups && Virial(d', g, alphaCrit) && 0 <= t < |d'.groups[g]|
      ensures 0 <= d'.groups[g][t] < |bound| && bound[d'.groups[g][t]] == g
    {
      assert g != i;
      assert d'.groups[g][t] == d.groups[g][t];
    }
  }

  /** The attach stamp keeps `BoundLive`: the grown group is stamped when it
      passes the test, and the stamp touches no member of another group. */
  lemma BoundLiveJoin(ps: Particles, k: Kernels, ntree: int, d: Dicts, lab: seq<int>, i: int, g: int,
                      alphaCrit: real, stamped: bool,
                      bound: seq<int>, largest: seq<int>, bound': seq<int>, largest': seq<int>)
    requires WellFormed(ps) && Keyed(d, g) && 0 <= i < |ps.m|
    requires Partition(d.groups, lab, i) && i < |lab| && |bound| == |lab|
    requires BoundLive(d, alphaCrit, bound)
    requires JoinStamp(Joined(ps, k, ntree, d, i, g), g, alphaCrit, stamped, i, bound, largest, bound', largest')
    ensures BoundLive(Joined(ps, k, ntree, d, i, g), alphaCrit, bound')
  {
    var d' := Joined(ps, k, ntree, d, i, g);
    forall h, t | h in d'.groups && Virial(d', h, alphaCrit) && 0 <= t < |d'.groups[h]|
      ensures 0 <= d'.groups[h][t] < |bound'| && bound'[d'.groups[h][t]] == h
    {
      var p := d'.groups[h][t];
      if h == g {
        if t < |d.groups[g]| {
          assert p == d.groups[g][t];
        }
        assert p in d'.groups[g];
      } else {
        assert p == d.groups[h][t] && lab[p] == h;
        forall u | 0 <= u < |d'.groups[g]|
          ensures d'.groups[g][u] != p
        {
          if u < |d.groups[g]| {
            assert d'.groups[g][u] == d.groups[g][u];
          }
        }
      }
    }
  }

  /** The merge stamp keeps `BoundLive`: group `b` is gone, the merged group
      is stamped when it passes the test, and the stamp touches no member of
      another group. */
  lemma BoundLiveMerge(ps: Particles, k: Kernels, ntree: int, d: Dicts, lab: seq<int>, done: int, a: int, b: int,
                       alphaCrit: real, stamped: bool,
                       bound: seq<int>, largest: seq<int>, bound': seq<int>, largest': seq<int>)
    requires Keyed(d, a) && Keyed(d, b) && a != b
    requires Partition(d.groups, lab, done) && |bound| == |lab| && Within(d.groups[b], |ps.m|)
    requires BoundLive(d, alphaCrit, bound)
    requires MergeStamp(Merged(ps, k, ntree, d, a, b), a, alphaCrit, stamped, bound, largest, bound', largest')
    ensures BoundLive(Merged(ps, k, ntree, d, a, b), alphaCrit, bound')
  {
    var m := Merged(ps, k, ntree, d, a, b);
    var ga, gb := d.groups[a], d.groups[b];
    forall h, t | h in m.groups && Virial(m, h, alphaCrit) && 0 <= t < |m.groups[h]|
      ensures 0 <= m.groups[h][t] < |bound'| && bound'[m.groups[h][t]] == h
    {
      var p := m.groups[h][t];
      if h == a {
        if t < |ga| {
          assert p == ga[t];
        } else {
          assert p == gb[t - |ga|];
        }
        assert p in m.groups[a];
      } else {
        assert p == d.groups[h][t] && lab[p] == h;
        forall u | 0 <= u < |m.groups[a]|
          ensures m.groups[a][u] != p
        {
          if u < |ga| {
            assert m.groups[a][u] == ga[u];
          } else {
            assert m.groups[a][u] == gb[u - |ga|];
          }
        }
      }
    }
  }

  /** Particle `i` founds a group of its own (CloudPhinder.py:208-217,
      229-238). */
  method Found(ps: Particles, k: Kernels, ntree: int, d: Dicts,
               lab: array<int>, bound: array<int>, largest: array<int>, i: int)
    returns (d': Dicts)
    requires lab != bound && lab != largest && i < lab.Length
    requires Consistent(ps, k, ntree, d, lab[..], bound[..], largest[..], i)
    modifies lab
    ensures d' == Founded(ps, d, i) && i !in d.groups && d'.groups.Keys == d.groups.Keys + {i}
    ensures Consistent(ps, k, ntree, d', lab[..], bound[..], largest[..], i + 1)
    ensures lab[..] == old(lab[..])[i := i]
  {
    ConsistentFound(ps, k, ntree, d, lab[..], bound[..], largest[..], i);
    lab[i] := i;
    var energy := InternalEnergy(ps.m[i], ps.u[i]);
    d' := Dicts(d.groups[i := [i]], d.masses[i := ps.m[i]], d.com[i := ps.x[i]], d.vCom[i := ps.v[i]],
                d.groupKE[i := energy], d.groupEnergy[i := energy], d.pending[i := [i]], d.tree[i := None]);
  }

  /** The dictionary side of particle `i` joining group `g`
      (CloudPhinder.py:242, 318-322, 327-332): the kinetic and total energy
      increments are booked against the group's mass and centre-of-mass
      velocity before those are updated, the centre of mass itself is left
      as it was, and the tree is rebuilt once more than `ntree` particles are
      pending. */
  method JoinLedgers(ps: Particles, k: Kernels, ntree: int, d: Dicts, i: int, g: int) returns (d': Dicts)
    requires WellFormed(ps) && Keyed(d, g) && 0 <= i < |ps.m|
    ensures d' == Joined(ps, k, ntree, d, i, g)
    ensures Keyed(d', g) && d'.groups[g] == d.groups[g] + [i] && d'.groups.Keys == d.groups.Keys
  {
    var group := d.groups[g] + [i];
    var mgroup := d.masses[g];
    var ke := d.groupKE[g] + KEIncrement(ps.m[i], ps.v[i], ps.u[i], d.vCom[g], mgroup);
    var e := d.groupEnergy[g] + EnergyIncrement(ps.m[i], ps.v[i], ps.u[i], d.vCom[g], mgroup,
                                                PotentialAt(k, i, d.tree[g], d.pending[g]));
    var pend, tr := d.pending[g] + [i], d.tree[g];
    if |pend| > ntree {
      tr, pend := Some(group), [];
    }
    d' := Put(d, g, group, mgroup + ps.m[i], d.com[g], Blend(ps.m[i], ps.v[i], mgroup, d.vCom[g]), ke, e, pend, tr);
    PutAt(d, g, group, mgroup + ps.m[i], d.com[g], Blend(ps.m[i], ps.v[i], mgroup, d.vCom[g]), ke, e, pend, tr, g + 1);
    JoinedPut(ps, k, ntree, d, i, g);
  }

  /** Particle `i` joins group `g` (CloudPhinder.py:241-242, 316-333): it
      takes `g` as label, the dictionaries follow `Joined`, and if the group
      is then bound all its members take `g` as bound label and `i` records
      the group's size. */
  method Join(ps: Particles, k: Kernels, ntree: int, alphaCrit: real, d: Dicts,
              lab: array<int>, bound: array<int>, largest: array<int>, i: int, g: int)
    returns (d': Dicts, stamped: bool)
    requires lab != bound && lab != largest && bound != largest && i < lab.Length
    requires Consistent(ps, k, ntree, d, lab[..], bound[..], largest[..], i) && g in d.groups
    modifies lab, bound, largest
    ensures LedgerAt(ps, k, ntree, d, g)
    ensures d' == Joined(ps, k, ntree, d, i, g)
    ensures Consistent(ps, k, ntree, d', lab[..], bound[..], largest[..], i + 1)
    ensures lab[..] == old(lab[..])[i := g]
    ensures JoinStamp(d', g, alphaCrit, stamped, i, old(bound[..]), old(largest[..]), bound[..], largest[..])
    ensures d'.groups.Keys == d.groups.Keys
  {
    ghost var lab0, bound0, largest0 := lab[..], bound[..], largest[..];
    assert LedgerAt(ps, k, ntree, d, g);
    lab[i] := g;
    assert lab[..] == lab0[i := g];
    d' := JoinLedgers(ps, k, ntree, d, i, g);
    stamped := IsBound(d'.groupKE[g], d'.groupEnergy[g], alphaCrit);
    if stamped {
      PartitionWithin(d.groups, lab0, i, g);
      largest[i] := |d'.groups[g]|;
      assert largest[..] == largest0[i := |d'.groups[g]|];
      StampArray(bound, d'.groups[g], g);
    }
    assert lab[..] == lab0[i := g];
    ConsistentJoin(ps, k, ntree, d, lab0, bound0, largest0, i, g, stamped, bound[..], largest[..]);
  }

  /** The dictionary side of a merge (CloudPhinder.py:257-300, 310-311):
      the mutual interaction energy of the two groups is evaluated and the
      tree and pending list follow the rules of lines 277-295; the ledgers
      then add up as `MergedWith` says and `b`'s entries are deleted. */
  method MergeLedgers(ps: Particles, k: Kernels, ntree: int, d: Dicts, a: int, b: int) returns (d': Dicts)
    requires Keyed(d, a) && Keyed(d, b) && a != b && Within(d.groups[b], |ps.m|)
    ensures d' == Merged(ps, k, ntree, d, a, b)
    ensures Keyed(d', a) && b !in d'.groups && d'.groups[a] == d.groups[a] + d.groups[b]
    ensures d'.groups.Keys == d.groups.Keys - {b}
  {
    var groupA, groupB := d.groups[a], d.groups[b];
    var groupAB := groupA + groupB;
    var inter := Interaction(k, ps.m, groupA, d.tree[a], d.pending[a], groupB);
    var pend, tr := d.pending[a], d.tree[a];
    if |groupA| > ntree {
      if |groupB| > 512 {
        tr, pend := Some(groupAB), [];
      } else {
        pend := pend + groupB;
      }
    } else {
      pend := groupAB;
    }
    if |pend| > ntree {
      tr, pend := Some(groupAB), [];
    }
    assert (tr, pend) == MergeTrees(d.tree[a], d.pending[a], groupA, groupB, ntree);
    d' := MergedWith(d, a, b, inter, tr, pend);
    MergedAt(d, a, b, inter, tr, pend);
  }

  /** Group `b` is merged into group `a` (CloudPhinder.py:257-311): the
      dictionaries follow `Merged`, `b`'s members are relabelled `a`
      (line 302), and if the merged group is bound all its members take `a`
      as bound label and record its size (lines 305-308). */
  method Merge(ps: Particles, k: Kernels, ntree: int, alphaCrit: real, d: Dicts,
               lab: array<int>, bound: array<int>, largest: array<int>, done: int, a: int, b: int)
    returns (d': Dicts, stamped: bool)
    requires lab != bound && lab != largest && bound != largest
    requires Consistent(ps, k, ntree, d, lab[..], bound[..], largest[..], done)
    requires a in d.groups && b in d.groups && a != b
    modifies lab, bound, largest
    ensures LedgerAt(ps, k, ntree, d, a) && LedgerAt(ps, k, ntree, d, b)
    ensures d' == Merged(ps, k, ntree, d, a, b) && a in d'.groups
    ensures Consistent(ps, k, ntree, d', lab[..], bound[..], largest[..], done)
    ensures lab[..] == Relabel(old(lab[..]), b, a)
    ensures MergeStamp(d', a, alphaCrit, stamped, old(bound[..]), old(largest[..]), bound[..], largest[..])
    ensures d'.groups.Keys == d.groups.Keys - {b}
  {
    ghost var lab0, bound0, largest0 := lab[..], bound[..], largest[..];
    assert LedgerAt(ps, k, ntree, d, a) && LedgerAt(ps, k, ntree, d, b);
    d' := MergeLedgers(ps, k, ntree, d, a, b);
    RelabelArray(lab, b, a);
    stamped := IsBound(d'.groupKE[a], d'.groupEnergy[a], alphaCrit);
    if stamped {
      var groupAB := d'.groups[a];
      PartitionWithin(d.groups, lab0, done, a);
      PartitionWithin(d.groups, lab0, done, b);
      assert forall j :: 0 <= j < |groupAB| ==> 0 <= groupAB[j] < largest.Length by {
        forall j | 0 <= j < |groupAB|
          ensures 0 <= groupAB[j] < largest.Length
        {
          if j >= |d.groups[a]| {
            assert groupAB[j] == d.groups[b][j - |d.groups[a]|];
          }
        }
      }
      StampArray(largest, groupAB, |groupAB|);
      StampArray(bound, groupAB, a);
    }
    ConsistentMerge(ps, k, ntree, d, lab0, bound0, largest0, done, a, b, stamped, bound[..], largest[..]);
  }

  /** At a saddle (CloudPhinder.py:245-333 with two different labels),
      group `b` is merged into group `a` and particle `i` then joins `a`.
      Two stamps may follow one another: the merge's over `group_ab`
      (lines 305-308), then the attach's over the grown group (lines
      323-326). */
  method Saddle(ps: Particles, k: Kernels, ntree: int, alphaCrit: real, d: Dicts,
                lab: array<int>, bound: array<int>, largest: array<int>, i: int, a: int, b: int)
    returns (d': Dicts, mergeStamped: bool, stamped: bool)
    requires lab != bound && lab != largest && bound != largest && i < lab.Length
    requires Consistent(ps, k, ntree, d, lab[..], bound[..], largest[..], i)
    requires a in d.groups && b in d.groups && a != b
    modifies lab, bound, largest
    ensures LedgerAt(ps, k, ntree, d, a) && LedgerAt(ps, k, ntree, d, b)
    ensures var m := Merged(ps, k, ntree, d, a, b);
      && Keyed(m, a) && d' == Joined(ps, k, ntree, m, i, a)
      && SaddleStamps(m, d', a, alphaCrit, mergeStamped, stamped, i, old(bound[..]), old(largest[..]), bound[..], largest[..])
    ensures Consistent(ps, k, ntree, d', lab[..], bound[..], largest[..], i + 1)
    ensures lab[..] == Relabel(old(lab[..]), b, a)[i := a]
    ensures d'.groups.Keys == d.groups.Keys - {b}
  {
    var dm;
    dm, mergeStamped := Merge(ps, k, ntree, alphaCrit, d, lab, bound, largest, i, a, b);
    d', stamped := Join(ps, k, ntree, alphaCrit, dm, lab, bound, largest, i, a);
  }

  /** What a particle does: found a group; attach to group `g`, with
      `stamped` when the group is bound afterwards; or merge group `b` into
      group `a`, with `mergeStamped` when the merged group is bound, and
      attach to `a`, with `stamped` when it is bound after that. */
  datatype Move = Founder | Attach(g: int, stamped: bool) | Fuse(a: int, b: int, mergeStamped: bool, stamped: bool)

  /** What particle `i`'s move does to the labels `lab`, giving `lab'`: a
      founder is exactly a particle that `Founds` a group, and takes its own
      index; an attaching particle takes the label of its nearest denser
      neighbour, which the second nearest carries too when there are two or
      more; at a saddle the two nearest denser neighbours carry `a` and `b`,
      every `b` becomes `a` and the particle takes `a`. */
  ghost predicate MoveLabels(ngb: seq<seq<int>>, ngbDist: seq<seq<real>>, phi: seq<real>,
                             lab: seq<int>, lab': seq<int>, i: int, move: Move, ka: int, kb: int)
    requires Rows(ngb, ngbDist, |phi|) && |lab| == |phi| && 0 <= i < |phi|
  {
    var row, dist := ngb[i], ngbDist[i];
    && (move.Founder? <==> Founds(row, phi, i))
    && (move.Founder? ==> lab' == lab[i := i])
    && (move.Attach? ==>
          && IsNearest(row, dist, phi, i, ka) && move.g == lab[row[ka]] && lab' == lab[i := move.g]
          && (CountDenser(row, phi, i, |row|) == 1 || (IsSecond(row, dist, phi, i, ka, kb) && lab[row[kb]] == move.g)))
    && (move.Fuse? ==>
          && IsNearest(row, dist, phi, i, ka) && IsSecond(row, dist, phi, i, ka, kb)
          && (lab[row[ka]] == move.a || lab[row[ka]] == move.b)
          && (lab[row[kb]] == move.a || lab[row[kb]] == move.b)
          && lab' == Relabel(lab, move.b, move.a)[i := move.a])
  }

  /** What particle `i`'s move does to the dictionaries `d`, giving `d'`,
      and to the bound labels and recorded sizes: a founder adds its own
      group and leaves both arrays as they were; an attach books the particle
      against group `g` and applies the attach stamp; a fuse merges `b` into
      `a`, books the particle against `a` and applies the merge stamp then
      the attach stamp. */
  ghost predicate MoveDicts(ps: Particles, k: Kernels, ntree: int, alphaCrit: real, d: Dicts, d': Dicts,
                            i: int, move: Move, bound: seq<int>, largest: seq<int>, bound': seq<int>, largest': seq<int>)
    requires WellFormed(ps) && 0 <= i < |ps.m|
  {
    && (move.Founder? ==> d' == Founded(ps, d, i) && bound' == bound && largest' == largest)
    && (move.Attach? ==>
          && LedgerAt(ps, k, ntree, d, move.g) && d' == Joined(ps, k, ntree, d, i, move.g)
          && JoinStamp(d', move.g, alphaCrit, move.stamped, i, bound, largest, bound', largest'))
    && (move.Fuse? ==>
          && move.a != move.b && LedgerAt(ps, k, ntree, d, move.a) && LedgerAt(ps, k, ntree, d, move.b)
          && Within(d.groups[move.b], |ps.m|)
          && var m := Merged(ps, k, ntree, d, move.a, move.b);
             && Keyed(m, move.a) && d' == Joined(ps, k, ntree, m, i, move.a)
             && SaddleStamps(m, d', move.a, alphaCrit, move.mergeStamped, move.stamped, i, bound, largest, bound', largest'))
  }

  /** One pass of the loop of CloudPhinder.py:204-333 for particle `i`: a
      particle whose neighbour row holds the sentinel, or that has no denser
      neighbour, founds a group; one whose single denser neighbour, or whose
      two nearest denser neighbours, carry one label joins that group; at a
      saddle between two groups the heavier one (the nearest neighbour's on a
      tie) absorbs the other and the particle joins it. */
  method Step(ps: Particles, k: Kernels, ntree: int, alphaCrit: real,
              ngb: seq<seq<int>>, ngbDist: seq<seq<real>>, phi: seq<real>, d: Dicts,
              lab: array<int>, bound: array<int>, largest: array<int>, i: int)
    returns (d': Dicts, move: Move, ka: int, kb: int)
    requires Inputs(ps, ngb, ngbDist) && phi == NegatedDensity(ps.rho)
    requires lab != bound && lab != largest && bound != largest && i < lab.Length
    requires Consistent(ps, k, ntree, d, lab[..], bound[..], largest[..], i)
    modifies lab, bound, largest
    ensures Consistent(ps, k, ntree, d', lab[..], bound[..], largest[..], i + 1)
    ensures MoveLabels(ngb, ngbDist, phi, old(lab[..]), lab[..], i, move, ka, kb)
    ensures MoveDicts(ps, k, ntree, alphaCrit, d, d', i, move, old(bound[..]), old(largest[..]), bound[..], largest[..])
    ensures move.Fuse? ==> var la, lb := old(lab[ngb[i][ka]]), old(lab[ngb[i][kb]]);
      && la in d.masses && lb in d.masses
      && (if d.masses[la] < d.masses[lb] then move.a == lb && move.b == la else move.a == la && move.b == lb)
    ensures d'.groups.Keys <= d.groups.Keys + {i}
    ensures !move.Founder? ==> d'.groups.Keys <= d.groups.Keys
  {
    var row, dist := ngb[i], ngbDist[i];
    ka, kb := 0, 0;
    var sentinel := AnySentinel(row, |ps.m|);
    if sentinel {
      d' := Found(ps, k, ntree, d, lab, bound, largest, i);
      move := Founder;
      return;
    }
    var nlower;
    nlower, ka, kb := NearestDenser(row, dist, phi, i);
    if nlower == 0 {
      d' := Found(ps, k, ntree, d, lab, bound, largest, i);
      move := Founder;
      return;
    }
    d', move := Link(ps, k, ntree, alphaCrit, ngb, ngbDist, phi, d, lab, bound, largest, i, nlower, ka, kb);
  }

  /** The rest of the pass for a particle `i` with no sentinel in its row
      and `nlower >= 1` denser neighbours, `ka` the nearest and `kb` the
      second (CloudPhinder.py:240-333): when there is one, or the two
      nearest carry one label, `i` joins that group; otherwise the heavier
      of the two groups (the nearest neighbour's on a tie) absorbs the
      other and `i` joins it. */
  method Link(ps: Particles, k: Kernels, ntree: int, alphaCrit: real,
              ngb: seq<seq<int>>, ngbDist: seq<seq<real>>, phi: seq<real>, d: Dicts,
              lab: array<int>, bound: array<int>, largest: array<int>, i: int,
              nlower: nat, ka: int, kb: int)
    returns (d': Dicts, move: Move)
    requires Inputs(ps, ngb, ngbDist) && phi == NegatedDensity(ps.rho)
    requires lab != bound && lab != largest && bound != largest && i < lab.Length
    requires Consistent(ps, k, ntree, d, lab[..], bound[..], largest[..], i)
    requires !HasSentinel(ngb[i], |ps.m|) && nlower == CountDenser(ngb[i], phi, i, |ngb[i]|) >= 1
    requires IsNearest(ngb[i], ngbDist[i], phi, i, ka)
    requires nlower >= 2 ==> IsSecond(ngb[i], ngbDist[i], phi, i, ka, kb)
    modifies lab, bound, largest
    ensures !move.Founder?
    ensures Consistent(ps, k, ntree, d', lab[..], bound[..], largest[..], i + 1)
    ensures MoveLabels(ngb, ngbDist, phi, old(lab[..]), lab[..], i, move, ka, kb)
    ensures MoveDicts(ps, k, ntree, alphaCrit, d, d', i, move, old(bound[..]), old(largest[..]), bound[..], largest[..])
    ensures move.Fuse? ==> var la, lb := old(lab[ngb[i][ka]]), old(lab[ngb[i][kb]]);
      && la in d.masses && lb in d.masses
      && (if d.masses[la] < d.masses[lb] then move.a == lb && move.b == la else move.a == la && move.b == lb)
    ensures d'.groups.Keys <= d.groups.Keys
  {
    var row := ngb[i];
    var stamped, mergeStamped;
    DenserIsEarlier(row, ps.rho, i, ka);
    ConsistentLabel(ps, k, ntree, d, lab[..], bound[..], largest[..], i, row[ka]);
    var ga := lab[row[ka]];
    if nlower == 1 || ga == lab[row[kb]] {
      d', stamped := Join(ps, k, ntree, alphaCrit, d, lab, bound, largest, i, ga);
      move := Attach(ga, stamped);
    } else {
      DenserIsEarlier(row, ps.rho, i, kb);
      ConsistentLabel(ps, k, ntree, d, lab[..], bound[..], largest[..], i, row[kb]);
      var gb := lab[row[kb]];
      if d.masses[ga] < d.masses[gb] {
        ga, gb := gb, ga;
      }
      d', mergeStamped, stamped := Saddle(ps, k, ntree, alphaCrit, d, lab, bound, largest, i, ga, gb);
      move := Fuse(ga, gb, mergeStamped, stamped);
    }
  }

  /** One bound group: the particles carrying bound label `a >= 0`, in index
      order, all share a group, which is `a` itself when `a` is still live. */
  lemma BoundGroupInside(bound: seq<int>, largest: seq<int>, lab: seq<int>, groups: map<int, seq<int>>, a: int)
    requires Stamps(bound, largest, lab, groups, |lab|)
    requires 0 <= a && Members(bound, a, |bound|) != []
    ensures var m := Members(bound, a, |bound|);
      && a < |lab|
      && (forall t | 0 <= t < |m| :: 0 <= m[t] < |lab| && bound[m[t]] == a)
      && (forall t | 0 <= t < |m| :: lab[m[t]] == lab[m[0]])
      && (a in groups ==> forall t | 0 <= t < |m| :: lab[m[t]] == a)
  {
    MembersExact(bound, a, |bound|);
    var m := Members(bound, a, |bound|);
    assert bound[m[0]] == a;
  }

  /** What the bound groups returned by ParticleGroups satisfy, given the
      stamp invariant on the final labels: every bound group is named by a
      particle index, is not empty, lies inside one group (the group it names,
      when that group is still live), and two bound groups never share a
      particle. */
  lemma BoundGroupsInside(bound: seq<int>, largest: seq<int>, lab: seq<int>, groups: map<int, seq<int>>,
                          r: map<int, seq<int>>)
    requires Stamps(bound, largest, lab, groups, |lab|)
    requires forall a :: a in r <==> 0 <= a && Members(bound, a, |bound|) != []
    requires forall a | a in r :: r[a] == Members(bound, a, |bound|)
    ensures forall a | a in r :: 0 <= a < |lab| && r[a] != []
    ensures forall a, t | a in r && 0 <= t < |r[a]| :: 0 <= r[a][t] < |lab| && bound[r[a][t]] == a
    ensures forall a, t | a in r && 0 <= t < |r[a]| :: lab[r[a][t]] == lab[r[a][0]]
    ensures forall a, t | a in r && a in groups && 0 <= t < |r[a]| :: lab[r[a][t]] == a
    ensures forall a, c, t, u | a in r && c in r && a != c && 0 <= t < |r[a]| && 0 <= u < |r[c]| ::
      r[a][t] != r[c][u]
  {
    forall a | a in r
      ensures 0 <= a < |lab| && r[a] != []
      ensures forall t | 0 <= t < |r[a]| :: 0 <= r[a][t] < |lab| && bound[r[a][t]] == a
      ensures forall t | 0 <= t < |r[a]| :: lab[r[a][t]] == lab[r[a][0]]
      ensures a in groups ==> forall t | 0 <= t < |r[a]| :: lab[r[a][t]] == a
    {
      BoundGroupInside(bound, largest, lab, groups, a);
    }
  }

  /** Every live group that passes the virial test at the end is a bound
      group holding exactly its members: its members all carry its label as
      bound label, and a particle carrying a live group's label belongs to
      that group. */
  lemma BoundGroupsLive(d: Dicts, alphaCrit: real, bound: seq<int>, largest: seq<int>, lab: seq<int>,
                        r: map<int, seq<int>>)
    requires Partition(d.groups, lab, |lab|) && Stamps(bound, largest, lab, d.groups, |lab|)
    requires BoundLive(d, alphaCrit, bound)
    requires forall a :: a in r <==> 0 <= a && Members(bound, a, |bound|) != []
    requires forall a | a in r :: r[a] == Members(bound, a, |bound|)
    ensures forall g | g in d.groups && Virial(d, g, alphaCrit) ::
      g in r && forall p :: p in r[g] <==> p in d.groups[g]
  {
    forall g | g in d.groups && Virial(d, g, alphaCrit)
      ensures g in r && forall p :: p in r[g] <==> p in d.groups[g]
    {
      MembersExact(bound, g, |bound|);
      var m := Members(bound, g, |bound|);
      PartitionWithin(d.groups, lab, |lab|, g);
      assert 0 <= g && g in m;
      forall p
        ensures p in m <==> p in d.groups[g]
      {
        if p in m {
          var t :| 0 <= t < |m| && m[t] == p;
          assert bound[p] == g && lab[p] == g;
        }
        if p in d.groups[g] {
          var t :| 0 <= t < |d.groups[g]| && d.groups[g][t] == p;
          assert bound[p] == g;
        }
      }
    }
  }

  /** The per-particle pass of ParticleGroups (CloudPhinder.py:181-333)
      with `phi = -rho`: the particles are visited once each in index order,
      which is decreasing density, and the invariant `Consistent` holds after
      every one of them. Returns the dictionaries and the final contents of
      the three label arrays: every group is keyed by a particle with the
      sentinel or without a denser neighbour, and the final labels follow
      the linking rule (`Linked`). */
  method Assemble(ps: Particles, k: Kernels, ntree: int, alphaCrit: real,
                  ngb: seq<seq<int>>, ngbDist: seq<seq<real>>)
    returns (d: Dicts, labels: seq<int>, bound: seq<int>, largest: seq<int>)
    requires Inputs(ps, ngb, ngbDist)
    ensures |bound| == |largest| == |labels| == |ps.m|
    ensures Consistent(ps, k, ntree, d, labels, bound, largest, |ps.m|)
    ensures forall g | g in d.groups :: 0 <= g < |ps.m| && Founds(ngb[g], NegatedDensity(ps.rho), g)
    ensures Linked(ngb, ngbDist, NegatedDensity(ps.rho), labels, |ps.m|)
    ensures BoundLive(d, alphaCrit, bound)
  {
    var n := |ps.m|;
    var phi := NegatedDensity(ps.rho);
    var lab := new int[n](_ => -1);
    var bnd := new int[n](_ => -1);
    var lgst := new int[n](_ => -1);
    d := Dicts(map[], map[], map[], map[], map[], map[], map[], map[]);
    var i := 0;
    while i < n
      invariant 0 <= i <= n
      invariant lab.Length == n && bnd.Length == n && lgst.Length == n
      invariant Consistent(ps, k, ntree, d, lab[..], bnd[..], lgst[..], i)
      invariant forall g | g in d.groups :: 0 <= g < n && Founds(ngb[g], phi, g)
      invariant Linked(ngb, ngbDist, phi, lab[..], i)
      invariant BoundLive(d, alphaCrit, bnd[..])
    {
      var move, ka, kb;
      d, move, ka, kb := Visit(ps, k, ntree, alphaCrit, ngb, ngbDist, phi, d, lab, bnd, lgst, i);
      i := i + 1;
    }
    labels, bound, largest := lab[..], bnd[..], lgst[..];
  }

  /** `Step` for particle `i`, with what the linking rule, the group keys
      and the bound labels gain from it: every group key is still a particle
      that `Founds` a group, the labels stay `Linked` one particle further,
      and every live group that passes the virial test is stamped. */
  method Visit(ps: Particles, k: Kernels, ntree: int, alphaCrit: real,
               ngb: seq<seq<int>>, ngbDist: seq<seq<real>>, phi: seq<real>, d: Dicts,
               lab: array<int>, bound: array<int>, largest: array<int>, i: int)
    returns (d': Dicts, move: Move, ka: int, kb: int)
    requires Inputs(ps, ngb, ngbDist) && phi == NegatedDensity(ps.rho)
    requires lab != bound && lab != largest && bound != largest && i < lab.Length
    requires Consistent(ps, k, ntree, d, lab[..], bound[..], largest[..], i)
    requires forall g | g in d.groups :: 0 <= g < |ps.m| && Founds(ngb[g], phi, g)
    requires Linked(ngb, ngbDist, phi, lab[..], i)
    requires BoundLive(d, alphaCrit, bound[..])
    modifies lab, bound, largest
    ensures Consistent(ps, k, ntree, d', lab[..], bound[..], largest[..], i + 1)
    ensures MoveLabels(ngb, ngbDist, phi, old(lab[..]), lab[..], i, move, ka, kb)
    ensures MoveDicts(ps, k, ntree, alphaCrit, d, d', i, move, old(bound[..]), old(largest[..]), bound[..], largest[..])
    ensures forall g | g in d'.groups :: 0 <= g < |ps.m| && Founds(ngb[g], phi, g)
    ensures Linked(ngb, ngbDist, phi, lab[..], i + 1)
    ensures BoundLive(d', alphaCrit, bound[..])
  {
    ghost var lab0, bound0, largest0 := lab[..], bound[..], largest[..];
    d', move, ka, kb := Step(ps, k, ntree, alphaCrit, ngb, ngbDist, phi, d, lab, bound, largest, i);
    LinkStep(ps, ngb, ngbDist, phi, lab0, lab[..], i, move, ka, kb);
    BoundStep(ps, k, ntree, alphaCrit, d, d', lab0, i, move, bound0, largest0, bound[..], largest[..]);
  }

  /** The dictionaries and bound labels after particle `i`'s move keep
      `BoundLive`. */
  lemma BoundStep(ps: Particles, k: Kernels, ntree: int, alphaCrit: real, d: Dicts, d': Dicts,
                  lab: seq<int>, i: int, move: Move,
                  bound: seq<int>, largest: seq<int>, bound': seq<int>, largest': seq<int>)
    requires Consistent(ps, k, ntree, d, lab, bound, largest, i) && 0 <= i < |ps.m|
    requires BoundLive(d, alphaCrit, bound)
    requires MoveDicts(ps, k, ntree, alphaCrit, d, d', i, move, bound, largest, bound', largest')
    ensures BoundLive(d', alphaCrit, bound')
  {
    match move
    case Founder =>
      BoundLiveFound(ps, d, i, alphaCrit, bound);
    case Attach(g, stamped) =>
      BoundLiveJoin(ps, k, ntree, d, lab, i, g, alphaCrit, stamped, bound, largest, bound', largest');
    case Fuse(a, b, mergeStamped, stamped) =>
      var m := Merged(ps, k, ntree, d, a, b);
      var bm := StampIf(bound, mergeStamped, m.groups[a], a);
      var lm := StampIf(largest, mergeStamped, m.groups[a], |m.groups[a]|);
      BoundLiveMerge(ps, k, ntree, d, lab, i, a, b, alphaCrit, mergeStamped, bound, largest, bm, lm);
      PartitionMerge(d.groups, lab, i, a, b);
      BoundLiveJoin(ps, k, ntree, m, Relabel(lab, b, a), i, a, alphaCrit, stamped, bm, lm, bound', largest');
  }

  /** The labels after particle `i`'s move keep the linking rule. */
  lemma LinkStep(ps: Particles, ngb: seq<seq<int>>, ngbDist: seq<seq<real>>, phi: seq<real>,
                 lab: seq<int>, lab': seq<int>, i: int, move: Move, ka: int, kb: int)
    requires Inputs(ps, ngb, ngbDist) && phi == NegatedDensity(ps.rho)
    requires |lab| == |ps.m| && |lab'| == |ps.m| && 0 <= i < |ps.m|
    requires Linked(ngb, ngbDist, phi, lab, i)
    requires MoveLabels(ngb, ngbDist, phi, lab, lab', i, move, ka, kb)
    ensures Linked(ngb, ngbDist, phi, lab', i + 1)
  {
    match move
    case Founder => LinkedFound(ngb, ngbDist, ps.rho, phi, lab, i);
    case Attach(g, _) => LinkedJoin(ngb, ngbDist, ps.rho, phi, lab, i, g, ka, kb);
    case Fuse(a, b, _, _) => LinkedMerge(ngb, ngbDist, ps.rho, phi, lab, i, a, b, ka, kb);
  }

  /** ParticleGroups (CloudPhinder.py:171-345): the per-particle pass, then
      the bound groups are gathered. On return every particle carries the
      label of the group that lists it, the groups partition the particles,
      every group's ledgers are those of its members, and each bound group
      lies inside one group. */
  method ParticleGroups(ps: Particles, k: Kernels, ntree: int, alphaCrit: real,
                        ngb: seq<seq<int>>, ngbDist: seq<seq<real>>)
    returns (groups: map<int, seq<int>>, boundGroups: map<int, seq<int>>, labels: seq<int>)
    requires Inputs(ps, ngb, ngbDist)
    ensures |labels| == |ps.m| && Partition(groups, labels, |ps.m|)
    ensures exists d: Dicts ::
              && d.groups == groups && Ledgers(ps, k, ntree, d)
              && forall g | g in groups && Virial(d, g, alphaCrit) ::
                   g in boundGroups && forall p :: p in boundGroups[g] <==> p in groups[g]
    ensures forall a | a in boundGroups :: 0 <= a < |ps.m| && boundGroups[a] != []
    ensures forall a, t | a in boundGroups && 0 <= t < |boundGroups[a]| :: 0 <= boundGroups[a][t] < |ps.m|
    ensures forall a, t | a in boundGroups && 0 <= t < |boundGroups[a]| ::
      labels[boundGroups[a][t]] == labels[boundGroups[a][0]]
    ensures forall a, t | a in boundGroups && a in groups && 0 <= t < |boundGroups[a]| ::
      labels[boundGroups[a][t]] == a
    ensures forall a, c, t, u | a in boundGroups && c in boundGroups && a != c
                                  && 0 <= t < |boundGroups[a]| && 0 <= u < |boundGroups[c]| ::
      boundGroups[a][t] != boundGroups[c][u]
    ensures forall g | g in groups :: 0 <= g < |ps.m| && Founds(ngb[g], NegatedDensity(ps.rho), g)
    ensures Linked(ngb, ngbDist, NegatedDensity(ps.rho), labels, |ps.m|)
  {
    var d, bound, largest;
    d, labels, bound, largest := Assemble(ps, k, ntree, alphaCrit, ngb, ngbDist);
    groups := d.groups;
    boundGroups := BoundGroups(bound);
    BoundGroupsInside(bound, largest, labels, groups, boundGroups);
    BoundGroupsLive(d, alphaCrit, bound, largest, labels, boundGroups);
  }
}
