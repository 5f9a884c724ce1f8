/** The state invariants of the group assembler, stated on plain values
    (the label array as a sequence, the dictionaries as maps), and the proofs
    that each of its three moves (found, attach, merge) preserves them. */
module Groups {
  import opened Ledger
  import opened Particles
  import opened Gravity

  /** No index appears twice. */
  predicate NoDup(s: seq<int>) {
    forall j, k :: 0 <= j < k < |s| ==> s[j] != s[k]
  }

  /** `assigned_group[assigned_group == from] = to` (CloudPhinder.py:302). */
  function Relabel(lab: seq<int>, from: int, to: int): (r: seq<int>)
    ensures |r| == |lab|
    ensures forall j :: 0 <= j < |lab| ==> r[j] == (if lab[j] == from then to else lab[j])
  {
    seq(|lab|, j requires 0 <= j < |lab| => if lab[j] == from then to else lab[j])
  }

  /** `arr[s] = val` for a list of indices `s` (CloudPhinder.py:307-308, 325-326). */
  function Stamp(arr: seq<int>, s: seq<int>, val: int): (r: seq<int>)
    ensures |r| == |arr|
    ensures forall j :: 0 <= j < |arr| ==> r[j] == (if j in s then val else arr[j])
  {
    seq(|arr|, j requires 0 <= j < |arr| => if j in s then val else arr[j])
  }

  /** `Stamp` when `on` holds, the array unchanged otherwise (the `if
      bound:` of CloudPhinder.py:305 and 323). */
  function StampIf(arr: seq<int>, on: bool, s: seq<int>, val: int): seq<int> {
    if on then Stamp(arr, s, val) else arr
  }

  /** `arr[p] = size` when `on` holds (CloudPhinder.py:325). */
  function RecordIf(arr: seq<int>, on: bool, p: int, size: int): seq<int>
    requires 0 <= p < |arr|
  {
    if on then arr[p := size] else arr
  }

  /** The labels of the particles `0..done-1` processed so far and the member
      lists agree: every key is a processed particle that still carries its
      own label, a key's list holds without repetition exactly the processed
      particles carrying that label, and unprocessed particles are labelled
      -1. */
  ghost predicate Partition(groups: map<int, seq<int>>, lab: seq<int>, done: int) {
    && 0 <= done <= |lab|
    && (forall g | g in groups :: 0 <= g < done && lab[g] == g && NoDup(groups[g]))
    && (forall g, k | g in groups && 0 <= k < |groups[g]| :: 0 <= groups[g][k] < done && lab[groups[g][k]] == g)
    && (forall p | 0 <= p < done :: lab[p] in groups && p in groups[lab[p]])
    && (forall p | done <= p < |lab| :: lab[p] == -1)
  }

  lemma PartitionWithin(groups: map<int, seq<int>>, lab: seq<int>, done: int, g: int)
    requires Partition(groups, lab, done) && g in groups
    ensures Within(groups[g], |lab|) && g in groups[g] && |groups[g]| >= 1
  {
    assert lab[g] == g;
  }

  /** Founding: particle `done` becomes the key and only member of a new
      group (CloudPhinder.py:208-210, 230-232). */
  lemma PartitionFound(groups: map<int, seq<int>>, lab: seq<int>, done: int)
    requires Partition(groups, lab, done) && done < |lab|
    ensures done !in groups
    ensures Partition(groups[done := [done]], lab[done := done], done + 1)
  {
    var groups', lab' := groups[done := [done]], lab[done := done];
    forall g, k | g in groups' && 0 <= k < |groups'[g]|
      ensures 0 <= groups'[g][k] < done + 1 && lab'[groups'[g][k]] == g
    {
      if g != done {
        assert groups'[g][k] == groups[g][k];
      }
    }
    forall p | 0 <= p < done + 1
      ensures lab'[p] in groups' && p in groups'[lab'[p]]
    {
      if p < done {
        assert lab[p] in groups && p in groups[lab[p]];
      }
    }
  }

  /** Attaching: particle `done` takes label `g` and is appended to group `g`
      (CloudPhinder.py:241-242, 301, 314). */
  lemma PartitionJoin(groups: map<int, seq<int>>, lab: seq<int>, done: int, g: int)
    requires Partition(groups, lab, done) && done < |lab| && g in groups
    ensures done !in groups[g]
    ensures Partition(groups[g := groups[g] + [done]], lab[done := g], done + 1)
  {
    var groups', lab' := groups[g := groups[g] + [done]], lab[done := g];
    assert NoDup(groups'[g]) by {
      forall j, k | 0 <= j < k < |groups'[g]|
        ensures groups'[g][j] != groups'[g][k]
      {
        if k < |groups[g]| {
          assert groups'[g][j] == groups[g][j] && groups'[g][k] == groups[g][k];
        } else {
          assert groups'[g][j] == groups[g][j];
        }
      }
    }
    forall h, k | h in groups' && 0 <= k < |groups'[h]|
      ensures 0 <= groups'[h][k] < done + 1 && lab'[groups'[h][k]] == h
    {
      if h != g || k < |groups[g]| {
        assert groups'[h][k] == groups[h][k];
      }
    }
    forall p | 0 <= p < done + 1
      ensures lab'[p] in groups' && p in groups'[lab'[p]]
    {
      if p < done {
        assert lab[p] in groups && p in groups[lab[p]];
      }
    }
  }

  /** Merging: group `b` is appended to group `a`, key `b` is removed and its
      members relabelled `a` (CloudPhinder.py:260-261, 299-302, 310-311). */
  lemma PartitionMerge(groups: map<int, seq<int>>, lab: seq<int>, done: int, a: int, b: int)
    requires Partition(groups, lab, done) && a in groups && b in groups && a != b
    ensures Partition(groups[a := groups[a] + groups[b]] - {b}, Relabel(lab, b, a), done)
  {
    var groups', lab' := groups[a := groups[a] + groups[b]] - {b}, Relabel(lab, b, a);
    assert NoDup(groups'[a]) by {
      var ga, gb := groups[a], groups[b];
      forall j, k | 0 <= j < k < |ga + gb|
        ensures (ga + gb)[j] != (ga + gb)[k]
      {
        if k < |ga| {
          assert (ga + gb)[j] == ga[j] && (ga + gb)[k] == ga[k];
        } else if j >= |ga| {
          assert (ga + gb)[j] == gb[j - |ga|] && (ga + gb)[k] == gb[k - |ga|];
        } else {
          assert (ga + gb)[j] == ga[j] && (ga + gb)[k] == gb[k - |ga|];
        }
      }
    }
    forall h, k | h in groups' && 0 <= k < |groups'[h]|
      ensures 0 <= groups'[h][k] < done && lab'[groups'[h][k]] == h
    {
      if h == a && k >= |groups[a]| {
        assert groups'[h][k] == groups[b][k - |groups[a]|];
      } else {
        assert groups'[h][k] == groups[h][k];
      }
    }
    forall p | 0 <= p < done
      ensures lab'[p] in groups' && p in groups'[lab'[p]]
    {
      assert lab[p] in groups && p in groups[lab[p]];
    }
  }

  /** One group's ledger entries are those of its member list `s`: `mass` is
      its total mass, `vc` its mean velocity, `kin` its internal kinetic plus
      thermal energy (the KineticEnergy of CloudPhinder.py:114-118), and,
      when the tree walk is exact, `tot - kin` is its pairwise potential
      energy. */
  ghost predicate Balanced(ps: Particles, k: Kernels, s: seq<int>, mass: real, vc: Vec3, kin: real, tot: real) {
    && WellFormed(ps) && Within(s, |ps.m|) && s != []
    && mass == Mass(ps, s)
    && vc == MeanVelocity(ps, s)
    && kin == KineticEnergy(ps, s)
    && (ExactWalk(k) ==> tot - kin == PairEnergy(k, ps.m, s))
  }

  /** A founder's ledger: mass `m[i]`, velocity `v[i]`, and kinetic and total
      energy `m[i]*u[i]` (CloudPhinder.py:211-215, 233-237). */
  lemma BalancedSingle(ps: Particles, k: Kernels, p: int)
    requires WellFormed(ps) && 0 <= p < |ps.m|
    ensures Balanced(ps, k, [p], ps.m[p], ps.v[p], InternalEnergy(ps.m[p], ps.u[p]), InternalEnergy(ps.m[p], ps.u[p]))
  {
    KineticEnergySingle(ps, p);
    assert [p][..0] == [];
    assert PairEnergy(k, ps.m, [p]) == Weigh(ps.m[p], 0.0);
  }

  /** The attach update of CloudPhinder.py:318-328 keeps a group's ledger
      exact: the increments are taken with the mass and mean velocity from
      before the update, and the potential at the new member from the tree
      and pending list that together hold the old members. */
  lemma BalancedAttach(ps: Particles, k: Kernels, s: seq<int>, mass: real, vc: Vec3, kin: real, tot: real,
                       p: int, tree: Option<seq<int>>, pending: seq<int>)
    requires Balanced(ps, k, s, mass, vc, kin, tot) && 0 <= p < |ps.m|
    requires Snapshot(tree) + pending == s
    ensures mass > 0.0
    ensures Balanced(ps, k, s + [p], mass + ps.m[p], Blend(ps.m[p], ps.v[p], mass, vc),
                     kin + KEIncrement(ps.m[p], ps.v[p], ps.u[p], vc, mass),
                     tot + EnergyIncrement(ps.m[p], ps.v[p], ps.u[p], vc, mass, PotentialAt(k, p, tree, pending)))
  {
    WithinConcat(s, [p], |ps.m|);
    KineticEnergyAttach(ps, s, p);
    assert (s + [p])[..|s|] == s;
    if ExactWalk(k) {
      assert PotentialAt(k, p, tree, pending) == Direct(k, p, s);
    }
  }

  /** The merge update of CloudPhinder.py:257-269, 297-299 keeps the ledger
      exact for the concatenated member list. */
  lemma BalancedMerge(ps: Particles, k: Kernels,
                      sa: seq<int>, ma: real, va: Vec3, kea: real, ea: real,
                      sb: seq<int>, mb: real, vb: Vec3, keb: real, eb: real,
                      treeA: Option<seq<int>>, pendingA: seq<int>)
    requires Balanced(ps, k, sa, ma, va, kea, ea) && Balanced(ps, k, sb, mb, vb, keb, eb)
    requires Snapshot(treeA) + pendingA == sa
    ensures ma > 0.0 && mb > 0.0
    ensures Balanced(ps, k, sa + sb, ma + mb, Blend(ma, va, mb, vb),
                     kea + keb + RelativeKE(ma, mb, va, vb),
                     ea + eb + RelativeKE(ma, mb, va, vb) + Interaction(k, ps.m, sa, treeA, pendingA, sb))
  {
    WithinConcat(sa, sb, |ps.m|);
    MeanVelocityMerge(ps, sa, sb);
    KineticEnergyMerge(ps, sa, sb);
    if ExactWalk(k) {
      InteractionExact(k, ps.m, sa, treeA, pendingA, sb);
      PairEnergyConcat(k, ps.m, sa, sb);
    }
  }

  /** The rebuild test (CloudPhinder.py:289-295, 330-332): once more than
      `ntree` members are pending, a tree is built over all of `members` and
      the pending list is cleared. */
  function Rebuild(tree: Option<seq<int>>, pending: seq<int>, members: seq<int>, ntree: int): (r: (Option<seq<int>>, seq<int>))
    ensures r.1 == [] || |r.1| <= ntree
    ensures r == (tree, pending) || r == (Some(members), [])
  {
    if |pending| > ntree then (Some(members), []) else (tree, pending)
  }

  /** The tree policy of a merge (CloudPhinder.py:277-295): group A keeps its
      tree and queues group B when A is large and B is at most 512 particles,
      a tree is built over both when both are large, and when A is small
      everything is pending; then the rebuild test. */
  function MergeTrees(treeA: Option<seq<int>>, pendingA: seq<int>, ga: seq<int>, gb: seq<int>, ntree: int): (r: (Option<seq<int>>, seq<int>))
    ensures r.1 == [] || |r.1| <= ntree
    ensures r.0 == treeA || r.0 == Some(ga + gb)
  {
    var gab := ga + gb;
    var step :=
      if |ga| > ntree then
        if |gb| > 512 then (Some(gab), []) else (treeA, pendingA + gb)
      else (treeA, gab);
    Rebuild(step.0, step.1, gab, ntree)
  }

  /** A group's tree and pending list: the tree's particles followed by the
      pending ones are exactly the members, a tree only exists over more than
      `ntree` particles, and more than `ntree` particles are pending only in
      a single-particle group. */
  ghost predicate Planted(s: seq<int>, tree: Option<seq<int>>, pending: seq<int>, ntree: int) {
    && Snapshot(tree) + pending == s
    && (tree.Some? ==> |tree.value| > ntree)
    && (|pending| <= ntree || pending == [] || |s| == 1)
  }

  lemma PlantedAttach(s: seq<int>, tree: Option<seq<int>>, pending: seq<int>, ntree: int, p: int)
    requires Planted(s, tree, pending, ntree)
    ensures Planted(s + [p], Rebuild(tree, pending + [p], s + [p], ntree).0, Rebuild(tree, pending + [p], s + [p], ntree).1, ntree)
  {
    assert Snapshot(tree) + (pending + [p]) == s + [p];
  }

  lemma PlantedMerge(sa: seq<int>, treeA: Option<seq<int>>, pendingA: seq<int>, sb: seq<int>, ntree: int)
    requires Planted(sa, treeA, pendingA, ntree) && sb != []
    ensures Planted(sa + sb, MergeTrees(treeA, pendingA, sa, sb, ntree).0, MergeTrees(treeA, pendingA, sa, sb, ntree).1, ntree)
  {
    if |sa| > ntree && |sb| <= 512 {
      assert Snapshot(treeA) + (pendingA + sb) == sa + sb;
    } else if |sa| <= ntree {
      assert treeA.None?;
    }
  }

  /** The bound labels (`assigned_bound_group`) and recorded sizes
      (`largest_assigned_group`): only processed particles carry them, a bound
      label is a processed particle's index, a recorded size never exceeds the
      size of the particle's current group, a particle whose bound label is a
      live group belongs to that group, and particles sharing a bound label
      share their group. */
  ghost predicate Stamps(bound: seq<int>, largest: seq<int>, lab: seq<int>, groups: map<int, seq<int>>, done: int) {
    && |bound| == |lab| && |largest| == |lab|
    && (forall j | 0 <= j < |lab| ::
          && -1 <= bound[j] < done
          && (largest[j] == -1 || (1 <= largest[j] && bound[j] != -1))
          && (done <= j ==> bound[j] == -1 && largest[j] == -1)
          && (largest[j] != -1 && lab[j] in groups ==> largest[j] <= |groups[lab[j]]|)
          && (bound[j] in groups ==> lab[j] == bound[j]))
    && (forall j, j' | 0 <= j < |lab| && 0 <= j' < |lab| && bound[j] != -1 && bound[j] == bound[j'] :: lab[j] == lab[j'])
  }

  lemma StampsFound(bound: seq<int>, largest: seq<int>, lab: seq<int>, groups: map<int, seq<int>>, done: int)
    requires Partition(groups, lab, done) && Stamps(bound, largest, lab, groups, done) && done < |lab|
    ensures Stamps(bound, largest, lab[done := done], groups[done := [done]], done + 1)
  {
    assert -1 !in groups && done !in groups;
  }

  /** The attach stamp (CloudPhinder.py:323-326): when the group is bound
      after the update, all its members take its label as bound label and
      the new member records the group's size. */
  lemma StampsJoin(bound: seq<int>, largest: seq<int>, lab: seq<int>, groups: map<int, seq<int>>, done: int,
                   g: int, stamped: bool)
    requires Partition(groups, lab, done) && Stamps(bound, largest, lab, groups, done) && done < |lab| && g in groups
    ensures
      var groups' := groups[g := groups[g] + [done]];
      Stamps(if stamped then Stamp(bound, groups'[g], g) else bound,
             if stamped then largest[done := |groups'[g]|] else largest,
             lab[done := g], groups', done + 1)
  {
    var groups', lab' := groups[g := groups[g] + [done]], lab[done := g];
    PartitionJoin(groups, lab, done, g);
    assert -1 !in groups;
  }

  /** The merge stamp (CloudPhinder.py:305-308): when the merged group is
      bound, all of `group_ab` take label `a` and record the merged size. */
  lemma StampsMerge(bound: seq<int>, largest: seq<int>, lab: seq<int>, groups: map<int, seq<int>>, done: int,
                    a: int, b: int, stamped: bool, bound': seq<int>, largest': seq<int>)
    requires Partition(groups, lab, done) && Stamps(bound, largest, lab, groups, done)
    requires a in groups && b in groups && a != b
    requires stamped ==> bound' == Stamp(bound, groups[a] + groups[b], a)
    requires stamped ==> largest' == Stamp(largest, groups[a] + groups[b], |groups[a] + groups[b]|)
    requires !stamped ==> bound' == bound && largest' == largest
    ensures Stamps(bound', largest', Relabel(lab, b, a), groups[a := groups[a] + groups[b]] - {b}, done)
  {
    var gab := groups[a] + groups[b];
    var groups', lab' := groups[a := gab] - {b}, Relabel(lab, b, a);
    PartitionMerge(groups, lab, done, a, b);
    assert -1 !in groups;
  }

  /** The merge stamp never lowers a recorded size: a particle of `group_ab`
      recorded at most the size of its group, `a` or `b`, which is at most
      the merged size. */
  lemma LargestGrowsOnMerge(bound: seq<int>, largest: seq<int>, lab: seq<int>, groups: map<int, seq<int>>, done: int,
                            a: int, b: int)
    requires Partition(groups, lab, done) && Stamps(bound, largest, lab, groups, done)
    requires a in groups && b in groups
    ensures forall j | 0 <= j < |largest| :: largest[j] <= Stamp(largest, groups[a] + groups[b], |groups[a] + groups[b]|)[j]
  {
    var gab := groups[a] + groups[b];
    forall j | 0 <= j < |largest| && j in gab
      ensures largest[j] <= |gab|
    {
      var t :| 0 <= t < |gab| && gab[t] == j;
      if t < |groups[a]| {
        assert groups[a][t] == j;
      } else {
        assert groups[b][t - |groups[a]|] == j;
      }
    }
  }

  /** The attach stamp never lowers a recorded size: it writes only the new
      member's entry, which was still unset. */
  lemma LargestGrowsOnJoin(bound: seq<int>, largest: seq<int>, lab: seq<int>, groups: map<int, seq<int>>, done: int,
                           size: int)
    requires Stamps(bound, largest, lab, groups, done) && 0 <= done < |lab| && size >= 1
    ensures forall j | 0 <= j < |largest| :: largest[j] <= largest[done := size][j]
  {
  }

  /** The eight per-group dictionaries of the assembler, keyed by group
      label: `groups` (member lists), `masses`, `COM`, `v_COM`, `group_KE`,
      `group_energy`, `particles_since_last_tree` and `group_tree` (a tree is
      given by the particles it was built over). */
  datatype Dicts = Dicts(groups: map<int, seq<int>>, masses: map<int, real>, com: map<int, Vec3>,
                         vCom: map<int, Vec3>, groupKE: map<int, real>, groupEnergy: map<int, real>,
                         pending: map<int, seq<int>>, tree: map<int, Option<seq<int>>>)

  /** Group `g` has an entry in every dictionary, and a positive mass. */
  predicate Keyed(d: Dicts, g: int) {
    && g in d.groups && g in d.masses && g in d.com && g in d.vCom
    && g in d.groupKE && g in d.groupEnergy && g in d.pending && g in d.tree
    && d.masses[g] > 0.0
  }

  /** Group `g` is live, has an entry in every dictionary, a positive mass,
      an exact ledger and a consistent tree and pending list. */
  ghost predicate LedgerAt(ps: Particles, k: Kernels, ntree: int, d: Dicts, g: int) {
    && Keyed(d, g)
    && Balanced(ps, k, d.groups[g], d.masses[g], d.vCom[g], d.groupKE[g], d.groupEnergy[g])
    && Planted(d.groups[g], d.tree[g], d.pending[g], ntree)
  }

  /** Every live group satisfies `LedgerAt`. */
  ghost predicate Ledgers(ps: Particles, k: Kernels, ntree: int, d: Dicts) {
    forall g | g in d.groups :: LedgerAt(ps, k, ntree, d, g)
  }

  /** Every dictionary's entry for group `a` written at once. */
  function Put(d: Dicts, a: int, s: seq<int>, m: real, c: Vec3, v: Vec3, kin: real, en: real,
               p: seq<int>, tr: Option<seq<int>>): Dicts
  {
    Dicts(d.groups[a := s], d.masses[a := m], d.com[a := c], d.vCom[a := v],
          d.groupKE[a := kin], d.groupEnergy[a := en], d.pending[a := p], d.tree[a := tr])
  }

  /** What `Put` leaves at key `a`, and that deleting another key keeps it. */
  lemma PutAt(d: Dicts, a: int, s: seq<int>, m: real, c: Vec3, v: Vec3, kin: real, en: real,
              p: seq<int>, tr: Option<seq<int>>, b: int)
    requires a != b
    ensures var r := Put(d, a, s, m, c, v, kin, en, p, tr);
      && a in r.groups && r.groups[a] == s && a in r.groupKE && r.groupKE[a] == kin
      && a in r.groupEnergy && r.groupEnergy[a] == en
    ensures var r := Drop(Put(d, a, s, m, c, v, kin, en, p, tr), b);
      && a in r.groups && r.groups[a] == s && a in r.groupKE && r.groupKE[a] == kin
      && a in r.groupEnergy && r.groupEnergy[a] == en
  {
  }

  /** Group `b` deleted from every dictionary. */
  function Drop(d: Dicts, b: int): Dicts
  {
    Dicts(d.groups - {b}, d.masses - {b}, d.com - {b}, d.vCom - {b},
          d.groupKE - {b}, d.groupEnergy - {b}, d.pending - {b}, d.tree - {b})
  }

  /** Particle `i` founds group `i` (CloudPhinder.py:208-217, 229-238): it is
      the only member, its mass, position and velocity are the group's, both
      energies are its thermal energy, and it is pending with no tree. */
  function Founded(ps: Particles, d: Dicts, i: int): Dicts
    requires WellFormed(ps) && 0 <= i < |ps.m|
  {
    Put(d, i, [i], ps.m[i], ps.x[i], ps.v[i], InternalEnergy(ps.m[i], ps.u[i]), InternalEnergy(ps.m[i], ps.u[i]),
        [i], None)
  }

  /** Particle `i` attached to group `g` (CloudPhinder.py:318-333): the
      increments are booked against the group's mass and centre-of-mass
      velocity from before the update; the centre of mass itself is left as
      it was; the tree is rebuilt once more than `ntree` particles are
      pending. */
  function Joined(ps: Particles, k: Kernels, ntree: int, d: Dicts, i: int, g: int): Dicts
    requires WellFormed(ps) && Keyed(d, g) && 0 <= i < |ps.m|
  {
    Put(d, g, d.groups[g] + [i], d.masses[g] + ps.m[i], d.com[g],
        Blend(ps.m[i], ps.v[i], d.masses[g], d.vCom[g]),
        d.groupKE[g] + KEIncrement(ps.m[i], ps.v[i], ps.u[i], d.vCom[g], d.masses[g]),
        d.groupEnergy[g] + EnergyIncrement(ps.m[i], ps.v[i], ps.u[i], d.vCom[g], d.masses[g],
                                           PotentialAt(k, i, d.tree[g], d.pending[g])),
        Rebuild(d.tree[g], d.pending[g] + [i], d.groups[g] + [i], ntree).1,
        Rebuild(d.tree[g], d.pending[g] + [i], d.groups[g] + [i], ntree).0)
  }

  /** `Joined` unfolded. */
  lemma JoinedPut(ps: Particles, k: Kernels, ntree: int, d: Dicts, i: int, g: int)
    requires WellFormed(ps) && Keyed(d, g) && 0 <= i < |ps.m|
    ensures Joined(ps, k, ntree, d, i, g) == Put(d, g, d.groups[g] + [i], d.masses[g] + ps.m[i], d.com[g],
               Blend(ps.m[i], ps.v[i], d.masses[g], d.vCom[g]),
               d.groupKE[g] + KEIncrement(ps.m[i], ps.v[i], ps.u[i], d.vCom[g], d.masses[g]),
               d.groupEnergy[g] + EnergyIncrement(ps.m[i], ps.v[i], ps.u[i], d.vCom[g], d.masses[g],
                                                  PotentialAt(k, i, d.tree[g], d.pending[g])),
               Rebuild(d.tree[g], d.pending[g] + [i], d.groups[g] + [i], ntree).1,
               Rebuild(d.tree[g], d.pending[g] + [i], d.groups[g] + [i], ntree).0)
  {
  }

  /** Group `b` merged into group `a` (CloudPhinder.py:257-311): masses add,
      centre of mass and its velocity are mass-weighted, the kinetic ledgers
      add with the relative-motion term and the energy ledgers also with the
      mutual interaction energy, the tree follows `MergeTrees`, and `b` is
      deleted. */
  function Merged(ps: Particles, k: Kernels, ntree: int, d: Dicts, a: int, b: int): Dicts
    requires Keyed(d, a) && Keyed(d, b) && Within(d.groups[b], |ps.m|)
  {
    MergedWith(d, a, b, Interaction(k, ps.m, d.groups[a], d.tree[a], d.pending[a], d.groups[b]),
               MergeTrees(d.tree[a], d.pending[a], d.groups[a], d.groups[b], ntree).0,
               MergeTrees(d.tree[a], d.pending[a], d.groups[a], d.groups[b], ntree).1)
  }

  /** `Merged` with the mutual interaction energy `inter` of the two groups
      and the merged group's tree and pending list given. */
  function MergedWith(d: Dicts, a: int, b: int, inter: real, tr: Option<seq<int>>, pend: seq<int>): Dicts
    requires Keyed(d, a) && Keyed(d, b)
  {
    Drop(Put(d, a, d.groups[a] + d.groups[b], d.masses[a] + d.masses[b],
             Blend(d.masses[a], d.com[a], d.masses[b], d.com[b]),
             Blend(d.masses[a], d.vCom[a], d.masses[b], d.vCom[b]),
             d.groupKE[a] + d.groupKE[b] + RelativeKE(d.masses[a], d.masses[b], d.vCom[a], d.vCom[b]),
             d.groupEnergy[a] + d.groupEnergy[b] + RelativeKE(d.masses[a], d.masses[b], d.vCom[a], d.vCom[b]) + inter,
             pend, tr), b)
  }

  /** The entries `MergedWith` leaves at key `a`, and that `b` is gone. */
  lemma MergedAt(d: Dicts, a: int, b: int, inter: real, tr: Option<seq<int>>, pend: seq<int>)
    requires Keyed(d, a) && Keyed(d, b) && a != b
    ensures var r := MergedWith(d, a, b, inter, tr, pend);
      && Keyed(r, a) && b !in r.groups
      && r.groups[a] == d.groups[a] + d.groups[b]
      && r.masses[a] == d.masses[a] + d.masses[b]
      && r.vCom[a] == Blend(d.masses[a], d.vCom[a], d.masses[b], d.vCom[b])
      && r.groupKE[a] == d.groupKE[a] + d.groupKE[b] + RelativeKE(d.masses[a], d.masses[b], d.vCom[a], d.vCom[b])
      && r.groupEnergy[a] == d.groupEnergy[a] + d.groupEnergy[b] + RelativeKE(d.masses[a], d.masses[b], d.vCom[a], d.vCom[b]) + inter
      && r.tree[a] == tr && r.pending[a] == pend
  {
  }

  /** Writing one group's entries, consistent among themselves, into every
      dictionary keeps the ledgers. */
  lemma LedgersPut(ps: Particles, k: Kernels, ntree: int, d: Dicts,
                   a: int, s: seq<int>, m: real, c: Vec3, v: Vec3, kin: real, en: real,
                   p: seq<int>, tr: Option<seq<int>>)
    requires Ledgers(ps, k, ntree, d)
    requires m > 0.0 && Balanced(ps, k, s, m, v, kin, en) && Planted(s, tr, p, ntree)
    ensures Ledgers(ps, k, ntree, Put(d, a, s, m, c, v, kin, en, p, tr))
  {
    var d' := Put(d, a, s, m, c, v, kin, en, p, tr);
    forall g | g in d'.groups
      ensures LedgerAt(ps, k, ntree, d', g)
    {
      if g != a {
        assert LedgerAt(ps, k, ntree, d, g);
      }
    }
  }

  /** The whole invariant of the assembler after each particle: the
      partition, one entry per live group in every dictionary, exact
      ledgers, consistent trees and pending lists, and the bound labels. */
  ghost predicate Consistent(ps: Particles, k: Kernels, ntree: int, d: Dicts,
                             lab: seq<int>, bound: seq<int>, largest: seq<int>, done: int)
  {
    && WellFormed(ps) && |lab| == |ps.m|
    && Partition(d.groups, lab, done)
    && Ledgers(ps, k, ntree, d)
    && Stamps(bound, largest, lab, d.groups, done)
  }

  /** A processed particle's label names a live group with a ledger. */
  lemma ConsistentLabel(ps: Particles, k: Kernels, ntree: int, d: Dicts,
                        lab: seq<int>, bound: seq<int>, largest: seq<int>, done: int, p: int)
    requires Consistent(ps, k, ntree, d, lab, bound, largest, done) && 0 <= p < done
    ensures lab[p] in d.groups && LedgerAt(ps, k, ntree, d, lab[p])
  {
  }

  /** Founding preserves the invariant. */
  lemma ConsistentFound(ps: Particles, k: Kernels, ntree: int, d: Dicts,
                        lab: seq<int>, bound: seq<int>, largest: seq<int>, done: int)
    requires Consistent(ps, k, ntree, d, lab, bound, largest, done)
    requires done < |lab|
    ensures done !in d.groups
    ensures Consistent(ps, k, ntree, Founded(ps, d, done), lab[done := done], bound, largest, done + 1)
  {
    PartitionFound(d.groups, lab, done);
    StampsFound(bound, largest, lab, d.groups, done);
    BalancedSingle(ps, k, done);
    LedgersPut(ps, k, ntree, d, done, [done], ps.m[done], ps.x[done], ps.v[done],
               InternalEnergy(ps.m[done], ps.u[done]), InternalEnergy(ps.m[done], ps.u[done]), [done], None);
  }

  lemma LedgersJoin(ps: Particles, k: Kernels, ntree: int, d: Dicts, g: int, i: int)
    requires Ledgers(ps, k, ntree, d) && g in d.groups && 0 <= i < |ps.m|
    ensures LedgerAt(ps, k, ntree, d, g)
    ensures Ledgers(ps, k, ntree, Joined(ps, k, ntree, d, i, g))
  {
    assert LedgerAt(ps, k, ntree, d, g);
    BalancedAttach(ps, k, d.groups[g], d.masses[g], d.vCom[g], d.groupKE[g], d.groupEnergy[g], i, d.tree[g], d.pending[g]);
    PlantedAttach(d.groups[g], d.tree[g], d.pending[g], ntree, i);
    LedgersPut(ps, k, ntree, d, g, d.groups[g] + [i], d.masses[g] + ps.m[i], d.com[g],
               Blend(ps.m[i], ps.v[i], d.masses[g], d.vCom[g]),
               d.groupKE[g] + KEIncrement(ps.m[i], ps.v[i], ps.u[i], d.vCom[g], d.masses[g]),
               d.groupEnergy[g] + EnergyIncrement(ps.m[i], ps.v[i], ps.u[i], d.vCom[g], d.masses[g],
                                                  PotentialAt(k, i, d.tree[g], d.pending[g])),
               Rebuild(d.tree[g], d.pending[g] + [i], d.groups[g] + [i], ntree).1,
               Rebuild(d.tree[g], d.pending[g] + [i], d.groups[g] + [i], ntree).0);
    assert Joined(ps, k, ntree, d, i, g) == Put(d, g, d.groups[g] + [i], d.masses[g] + ps.m[i], d.com[g],
               Blend(ps.m[i], ps.v[i], d.masses[g], d.vCom[g]),
               d.groupKE[g] + KEIncrement(ps.m[i], ps.v[i], ps.u[i], d.vCom[g], d.masses[g]),
               d.groupEnergy[g] + EnergyIncrement(ps.m[i], ps.v[i], ps.u[i], d.vCom[g], d.masses[g],
                                                  PotentialAt(k, i, d.tree[g], d.pending[g])),
               Rebuild(d.tree[g], d.pending[g] + [i], d.groups[g] + [i], ntree).1,
               Rebuild(d.tree[g], d.pending[g] + [i], d.groups[g] + [i], ntree).0);
  }

  /** Attaching particle `done` to group `g` preserves the invariant, whether
      or not the group is found bound afterwards. */
  lemma ConsistentJoin(ps: Particles, k: Kernels, ntree: int, d: Dicts,
                       lab: seq<int>, bound: seq<int>, largest: seq<int>, done: int,
                       g: int, stamped: bool, bound': seq<int>, largest': seq<int>)
    requires Consistent(ps, k, ntree, d, lab, bound, largest, done)
    requires done < |lab| && g in d.groups
    requires stamped ==> bound' == Stamp(bound, d.groups[g] + [done], g)
    requires stamped ==> largest' == largest[done := |d.groups[g]| + 1]
    requires !stamped ==> bound' == bound && largest' == largest
    ensures done !in d.groups[g] && LedgerAt(ps, k, ntree, d, g)
    ensures Consistent(ps, k, ntree, Joined(ps, k, ntree, d, done, g), lab[done := g], bound', largest', done + 1)
  {
    PartitionJoin(d.groups, lab, done, g);
    StampsJoin(bound, largest, lab, d.groups, done, g, stamped);
    LedgersJoin(ps, k, ntree, d, g, done);
  }

  lemma LedgersMerge(ps: Particles, k: Kernels, ntree: int, d: Dicts, a: int, b: int)
    requires Ledgers(ps, k, ntree, d) && a in d.groups && b in d.groups && a != b
    ensures LedgerAt(ps, k, ntree, d, a) && LedgerAt(ps, k, ntree, d, b)
    ensures Ledgers(ps, k, ntree, Merged(ps, k, ntree, d, a, b))
  {
    assert LedgerAt(ps, k, ntree, d, a);
    assert LedgerAt(ps, k, ntree, d, b);
    var trees := MergeTrees(d.tree[a], d.pending[a], d.groups[a], d.groups[b], ntree);
    LedgersMergeWith(ps, k, ntree, d, a, b, Interaction(k, ps.m, d.groups[a], d.tree[a], d.pending[a], d.groups[b]),
                     trees.0, trees.1);
  }

  lemma LedgersMergeWith(ps: Particles, k: Kernels, ntree: int, d: Dicts, a: int, b: int,
                         inter: real, tr: Option<seq<int>>, pend: seq<int>)
    requires Ledgers(ps, k, ntree, d) && a != b
    requires LedgerAt(ps, k, ntree, d, a) && LedgerAt(ps, k, ntree, d, b)
    requires inter == Interaction(k, ps.m, d.groups[a], d.tree[a], d.pending[a], d.groups[b])
    requires (tr, pend) == MergeTrees(d.tree[a], d.pending[a], d.groups[a], d.groups[b], ntree)
    ensures Ledgers(ps, k, ntree, MergedWith(d, a, b, inter, tr, pend))
  {
    var d' := MergedWith(d, a, b, inter, tr, pend);
    forall g | g in d'.groups
      ensures LedgerAt(ps, k, ntree, d', g)
    {
      if g == a {
        MergedBalanced(ps, k, ntree, d, a, b, inter);
        MergedPlanted(ps, k, ntree, d, a, b, tr, pend);
        LedgerAtMerged(ps, k, ntree, d, a, b, inter, tr, pend);
      } else {
        assert LedgerAt(ps, k, ntree, d, g);
      }
    }
  }

  /** The merged group's own ledger, from the merged group's `Balanced`
      and `Planted` facts. */
  lemma LedgerAtMerged(ps: Particles, k: Kernels, ntree: int, d: Dicts, a: int, b: int,
                       inter: real, tr: Option<seq<int>>, pend: seq<int>)
    requires a != b && Keyed(d, a) && Keyed(d, b)
    requires Balanced(ps, k, d.groups[a] + d.groups[b], d.masses[a] + d.masses[b],
                      Blend(d.masses[a], d.vCom[a], d.masses[b], d.vCom[b]),
                      d.groupKE[a] + d.groupKE[b] + RelativeKE(d.masses[a], d.masses[b], d.vCom[a], d.vCom[b]),
                      d.groupEnergy[a] + d.groupEnergy[b] + RelativeKE(d.masses[a], d.masses[b], d.vCom[a], d.vCom[b]) + inter)
    requires Planted(d.groups[a] + d.groups[b], tr, pend, ntree)
    ensures LedgerAt(ps, k, ntree, MergedWith(d, a, b, inter, tr, pend), a)
  {
    MergedAt(d, a, b, inter, tr, pend);
    var rel := RelativeKE(d.masses[a], d.masses[b], d.vCom[a], d.vCom[b]);
    LedgerAtFrom(ps, k, ntree, MergedWith(d, a, b, inter, tr, pend), a, d.groups[a] + d.groups[b],
                 d.masses[a] + d.masses[b], Blend(d.masses[a], d.vCom[a], d.masses[b], d.vCom[b]),
                 d.groupKE[a] + d.groupKE[b] + rel, d.groupEnergy[a] + d.groupEnergy[b] + rel + inter, tr, pend);
  }

  lemma MergedBalanced(ps: Particles, k: Kernels, ntree: int, d: Dicts, a: int, b: int, inter: real)
    requires LedgerAt(ps, k, ntree, d, a) && LedgerAt(ps, k, ntree, d, b)
    requires inter == Interaction(k, ps.m, d.groups[a], d.tree[a], d.pending[a], d.groups[b])
    ensures Balanced(ps, k, d.groups[a] + d.groups[b], d.masses[a] + d.masses[b],
                     Blend(d.masses[a], d.vCom[a], d.masses[b], d.vCom[b]),
                     d.groupKE[a] + d.groupKE[b] + RelativeKE(d.masses[a], d.masses[b], d.vCom[a], d.vCom[b]),
                     d.groupEnergy[a] + d.groupEnergy[b] + RelativeKE(d.masses[a], d.masses[b], d.vCom[a], d.vCom[b]) + inter)
  {
    BalancedMerge(ps, k, d.groups[a], d.masses[a], d.vCom[a], d.groupKE[a], d.groupEnergy[a],
                  d.groups[b], d.masses[b], d.vCom[b], d.groupKE[b], d.groupEnergy[b], d.tree[a], d.pending[a]);
  }

  lemma MergedPlanted(ps: Particles, k: Kernels, ntree: int, d: Dicts, a: int, b: int, tr: Option<seq<int>>, pend: seq<int>)
    requires LedgerAt(ps, k, ntree, d, a) && LedgerAt(ps, k, ntree, d, b)
    requires (tr, pend) == MergeTrees(d.tree[a], d.pending[a], d.groups[a], d.groups[b], ntree)
    ensures Planted(d.groups[a] + d.groups[b], tr, pend, ntree)
  {
    PlantedMerge(d.groups[a], d.tree[a], d.pending[a], d.groups[b], ntree);
  }

  /** `LedgerAt` from the entries stored at `g`. */
  lemma LedgerAtFrom(ps: Particles, k: Kernels, ntree: int, d: Dicts, g: int,
                     s: seq<int>, m: real, v: Vec3, kin: real, en: real, tr: Option<seq<int>>, pend: seq<int>)
    requires Keyed(d, g) && d.groups[g] == s && d.masses[g] == m && d.vCom[g] == v
    requires d.groupKE[g] == kin && d.groupEnergy[g] == en && d.tree[g] == tr && d.pending[g] == pend
    requires Balanced(ps, k, s, m, v, kin, en) && Planted(s, tr, pend, ntree)
    ensures LedgerAt(ps, k, ntree, d, g)
  {
  }

  /** Merging group `b` into group `a` preserves the invariant, whether or
      not the merged group is found bound. */
  lemma ConsistentMerge(ps: Particles, k: Kernels, ntree: int, d: Dicts,
                        lab: seq<int>, bound: seq<int>, largest: seq<int>, done: int,
                        a: int, b: int, stamped: bool, bound': seq<int>, largest': seq<int>)
    requires Consistent(ps, k, ntree, d, lab, bound, largest, done)
    requires a in d.groups && b in d.groups && a != b
    requires stamped ==> bound' == Stamp(bound, d.groups[a] + d.groups[b], a)
    requires stamped ==> largest' == Stamp(largest, d.groups[a] + d.groups[b], |d.groups[a] + d.groups[b]|)
    requires !stamped ==> bound' == bound && largest' == largest
    ensures LedgerAt(ps, k, ntree, d, a) && LedgerAt(ps, k, ntree, d, b)
    ensures Consistent(ps, k, ntree, Merged(ps, k, ntree, d, a, b), Relabel(lab, b, a), bound', largest', done)
  {
    PartitionMerge(d.groups, lab, done, a, b);
    StampsMerge(bound, largest, lab, d.groups, done, a, b, stamped, bound', largest');
    LedgersMerge(ps, k, ntree, d, a, b);
  }
}
