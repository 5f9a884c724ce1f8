# CloudPhinder group assembler in Dafny

This project models the density-ordered group assembler of CloudPhinder,
`ParticleGroups` (CloudPhinder.py:171-345), together with the two energy
helpers it calls: `KE_Increment` (153-161) and the arithmetic of
`EnergyIncrement` (135-151), with the gravitational potential left abstract.

The assembler visits the particles once each, in index order. An upstream
sort has put them in order of decreasing density, and `phi = -rho`. Each
particle does one of three things:

- founds a group keyed by its own index, when its neighbour row holds the
  out-of-range sentinel or it has no denser neighbour;
- joins the group of its nearest denser neighbour, when it has one denser
  neighbour or its two nearest denser neighbours carry the same label;
- at a saddle, merges the lighter of the two groups into the heavier and
  then joins the heavier.

Alongside the labels it keeps eight per-group dictionaries:

- the member list;
- mass, centre of mass and centre-of-mass velocity;
- the kinetic ledger `group_KE` and the total-energy ledger `group_energy`;
- the members pending since the last tree build, and the tree.

It also keeps three per-particle arrays: `assigned_group`,
`assigned_bound_group` and `largest_assigned_group`. A group whose virial
ratio `|2KE/|E-KE||` falls below `alpha_crit` stamps its label into
`assigned_bound_group`. A final pass turns those stamps into the map of
bound groups.

Modules:

- `Ledger` (`ledger.dfy`): 3-vectors, `KEIncrement`, `EnergyIncrement`, the
  relative-motion term, mass-weighted blending and the virial test, with the
  algebra (parallel-axis identity) that links them.
- `Particles` (`particles.dfy`): the per-particle arrays and the direct
  definitions of a member list's mass, mean velocity and internal kinetic
  plus thermal energy (`KineticEnergy`, CloudPhinder.py:114-118). These are
  the reference the incremental ledgers are proved against.
- `Gravity` (`gravity.dfy`): the potential terms over abstract kernels. A
  tree is represented by the list of particles it was built over.
- `Neighbours` (`neighbours.dfy`): the sentinel test and the choice of the
  nearest two denser neighbours.
- `Groups` (`groups.dfy`): the invariant of the assembler, `Consistent`,
  and one lemma per move showing the move preserves it. `Consistent` says:
  - the labels and member lists form a partition (`Partition`);
  - every live group's ledgers equal the direct sums over its members
    (`Balanced`);
  - the tree and pending list cover the members (`Planted`);
  - the bound stamps are coherent (`Stamps`).
- `Linking` (`linking.dfy`): the linking rule as it shows in the final
  labels (`Linked`): a particle that did not found a group carries the label
  of its nearest denser neighbour and, when it has two or more, that of its
  second nearest. `Founds` says which particles found a group.
- `Assembly` (`assembly.dfy`): the imperative assembler. The label arrays
  are Dafny arrays updated in place. `Step` is one iteration (with `Link`
  for a particle that has a denser neighbour and `Saddle` for a merge
  followed by an attach), `Visit` adds the linking rule and the bound-stamp
  invariant `BoundLive` to it, `Assemble` is the loop and `ParticleGroups`
  is the whole function. `BoundLive` says that every live group whose
  ledgers pass the virial test has all its members stamped with its label;
  at the end it makes each such group a bound group with exactly its
  members.
- `Extract` (`extract.dfy`): the bound-group pass (CloudPhinder.py:337-343).

Inputs the model takes as parameters:

- the neighbour rows `ngb` and their distances `ngbDist`, which come from a
  k-d tree query;
- the gravity kernels: a pair potential and a tree walk, in `Kernels`.

The ledger's potential part is proved exact under the hypothesis
`ExactWalk`, that the tree walk equals direct summation over the tree's
particles. Without it, only the kinetic ledger is proved exact.

Where the code and its documentation disagree, the model follows the code:

- A particle founds a group when ANY slot of its row holds the sentinel
  (line 207), not only when all of them do.
- On attach, `COM` is not updated; only `v_COM` and `masses` are (327-328).
- On attach, only the new particle records `largest_assigned_group`; every
  member takes the bound label (325-326).
- `InteractionEnergy` uses only group A's tree; B's tree is ignored
  (103-109).
- A bound label can name a group that no longer exists. This happens when
  group B is stamped bound and later merged into an unbound A: B's key is
  deleted but its members keep bound label B. `Stamps` therefore only
  promises that particles sharing a bound label share a group, and that a
  bound label naming a live group is the particle's own group
  (`Assembly.BoundGroupsInside`).
- Ties between denser neighbours at equal distance are resolved in favour
  of the earlier slot. The source sorts with numpy's default `argsort`,
  which is not stable, so its tie order is unspecified.
- The same-label branch at lines 252-253 is unreachable: line 240 already
  sends equal labels to the attach case. `Assembly.Step` states that a
  merge only happens between two different labels.

## Model

| member | source | states |
|---|---|---|
| Ledger.KEIncrement | CloudPhinder.py:153-161 | the increment is never less than the particle's thermal energy `m*u` |
| Ledger.KEIncrementRelative | CloudPhinder.py:159-161 | `KE_Increment` equals the relative kinetic energy (half the reduced mass times the squared velocity difference) of particle and group plus `m_i*u_i` |
| Ledger.EnergyIncrement | CloudPhinder.py:149-151 | the energy increment exceeds the kinetic increment by exactly `m_i*phi` |
| Ledger.ReducedMass | CloudPhinder.py:160 | the reduced mass of two positive masses is positive |
| Ledger.RelativeKE | CloudPhinder.py:265-266 | the relative-motion term of a merge is non-negative |
| Ledger.Blend | CloudPhinder.py:297-298 | the blend times the total mass is the sum of the mass-weighted parts (conservation of momentum) |
| Ledger.IsBound | CloudPhinder.py:305-306 | bound iff `E != KE` and the absolute value of `2KE` is below `alpha_crit` times the absolute value of `E-KE`; when `E == KE` the test is false |
| Ledger.BlendSymmetric | CloudPhinder.py:327 | swapping the two bodies changes neither the blend nor the relative kinetic energy |
| Ledger.BlendSpread | CloudPhinder.py:263-266 | parallel-axis identity: the spread of two weighted velocities about their blend is twice their relative kinetic energy |
| Particles.Mass | CloudPhinder.py:299 | a member list's mass is non-negative, and positive when the list is non-empty |
| Particles.MeanVelocity | CloudPhinder.py:116 | the mean velocity times the mass is the total momentum |
| Particles.MassConcat | CloudPhinder.py:299 | the mass of a concatenation is the sum of the masses |
| Particles.MomentumConcat | CloudPhinder.py:298 | the momentum of a concatenation is the sum of the momenta |
| Particles.SpeedMomentConcat | CloudPhinder.py:117-118 | the sum of mass times squared speed is additive over concatenation |
| Particles.ThermalConcat | CloudPhinder.py:118 | the thermal energy is additive over concatenation |
| Particles.SpreadMoments | CloudPhinder.py:114-118 | the kinetic plus thermal energy about any centre, expanded in the list's moments |
| Particles.KineticEnergyMoments | CloudPhinder.py:114-118 | `KineticEnergy` about the mean velocity in terms of the moments |
| Particles.KineticEnergySingle | CloudPhinder.py:211-215 | a single particle has mass `m`, mean velocity `v` and energy `m*u` |
| Particles.MeanVelocityMerge | CloudPhinder.py:298 | the mean velocity of a concatenation is the mass-weighted blend of the parts' mean velocities |
| Particles.KineticEnergyMerge | CloudPhinder.py:264-266 | the kinetic energy of a concatenation is the sum of the parts plus their relative kinetic energy |
| Particles.KineticEnergy | CloudPhinder.py:114-118 | the kinetic energy about the mean velocity plus the thermal energy; `Particles.SpreadAtLeastThermal` shows it is never below the thermal energy, and `Particles.KineticEnergyMoments`, `KineticEnergyAttach` and `KineticEnergyMerge` give its value in moments and under attach and merge |
| Particles.SpreadAtLeastThermal | CloudPhinder.py:117-118 | the kinetic plus thermal energy about any centre is at least the thermal energy |
| Particles.KineticEnergyAttach | CloudPhinder.py:320-321 | appending a particle raises `KineticEnergy` by `KE_Increment` taken with the old mass and mean velocity |
| Gravity.PotentialAt | CloudPhinder.py:143-148 | with no tree the potential is the direct sum over the pending members; with an exact walk it is the direct sum over tree and pending members |
| Gravity.DirectConcat | CloudPhinder.py:143-148 | direct summation is additive over the source list |
| Gravity.Interaction | CloudPhinder.py:95-111 | when group A has no tree, InteractionEnergy is the direct cross term of B in A's field (`Gravity.InteractionExact` gives the same with a tree and an exact walk) |
| Gravity.InteractionExact | CloudPhinder.py:95-111 | with an exact walk and A's tree plus pending list covering A, InteractionEnergy is the direct cross term of B in A's field |
| Gravity.PairEnergyConcat | CloudPhinder.py:263-274 | the pair energy of two concatenated groups is the sum of each plus the cross term |
| Neighbours.NegatedDensity | CloudPhinder.py:181 | `phi[j] == -rho[j]` for every particle |
| Neighbours.AnySentinel | CloudPhinder.py:207 | returns true iff some slot of the row exceeds `n-1` |
| Neighbours.CountDenser | CloudPhinder.py:220-226 | the count is at most the number of slots past slot 0, and zero iff no such slot is denser |
| Neighbours.NearestDenser | CloudPhinder.py:218-226 | the count of denser slots; once there is one, `ka` is the nearest; once there are two, `kb` is the second nearest |
| Neighbours.NonIncreasingFar | CloudPhinder.py:204 | densities sorted in decreasing order compare across any distance |
| Neighbours.DenserIsEarlier | CloudPhinder.py:220-224 | every denser neighbour of `i` has a smaller index, so it was processed before `i` |
| Groups.Relabel | CloudPhinder.py:302 | every entry equal to `from` becomes `to` and every other entry is unchanged |
| Groups.Stamp | CloudPhinder.py:307-308 | the listed indices take the value and every other entry is unchanged |
| Groups.PartitionFound | CloudPhinder.py:208-210 | founding keeps the partition, with `i` a fresh key whose list is `[i]` |
| Groups.PartitionJoin | CloudPhinder.py:241-242 | attaching keeps the partition; `i` was not already in the group |
| Groups.PartitionMerge | CloudPhinder.py:300-302 | merging keeps the partition: B's key is gone and no particle keeps label B |
| Groups.BalancedSingle | CloudPhinder.py:211-215 | a founder's ledger entries are exact for its one-member list |
| Groups.BalancedAttach | CloudPhinder.py:318-328 | the attach updates keep mass, mean velocity, kinetic ledger and (with an exact walk) potential ledger exact |
| Groups.BalancedMerge | CloudPhinder.py:257-269 | the merge updates keep the ledgers exact for the concatenated member list |
| Groups.Rebuild | CloudPhinder.py:330-332 | either nothing changes or a tree is built over all the members and the pending list is cleared, so the pending list is empty or at most `ntree` long (`Groups.PlantedAttach` shows tree plus pending still cover the members) |
| Groups.MergeTrees | CloudPhinder.py:277-295 | the merged group keeps A's tree or gets one built over `group_a + group_b`, and its pending list is empty or at most `ntree` long (`Groups.PlantedMerge` shows tree plus pending are exactly the members) |
| Groups.PlantedAttach | CloudPhinder.py:329-332 | after an attach and the rebuild test, tree plus pending list still cover the members and pending is bounded |
| Groups.PlantedMerge | CloudPhinder.py:277-295 | the merge tree policy keeps tree plus pending list equal to the members and pending bounded |
| Groups.StampsFound | CloudPhinder.py:229-238 | founding keeps the bound stamps coherent |
| Groups.StampsJoin | CloudPhinder.py:323-326 | the attach stamp keeps the bound stamps coherent |
| Groups.StampsMerge | CloudPhinder.py:305-308 | the merge stamp keeps the bound stamps coherent |
| Groups.LargestGrowsOnMerge | CloudPhinder.py:307 | the merge stamp never lowers any particle's recorded size |
| Groups.LargestGrowsOnJoin | CloudPhinder.py:325 | the attach stamp never lowers any particle's recorded size |
| Groups.Founded | CloudPhinder.py:208-217 | the founder's dictionary entries; `Groups.ConsistentFound` proves they are an exact ledger for the one-member group `[i]` and keep the invariant |
| Groups.Joined | CloudPhinder.py:318-332 | the dictionaries after an attach; `Groups.LedgersJoin` proves every ledger stays exact for the member list `group + [i]` |
| Groups.Merged | CloudPhinder.py:257-311 | the dictionaries after a merge; `Groups.LedgersMerge` proves every ledger stays exact for `group_a + group_b` with B deleted |
| Groups.MergedWith | CloudPhinder.py:257-300 | the merge with the interaction energy and the tree given; `Groups.MergedAt` gives its entries at A and that B is gone, and `Groups.LedgersMergeWith` proves the ledgers stay exact |
| Groups.MergedAt | CloudPhinder.py:257-300 | after the merge A's list is `group_a + group_b`, masses add, `v_COM` is the blend, both ledgers add with the relative-motion term (the energy ledger also with the interaction energy), and B's key is gone |
| Groups.LedgersMergeWith | CloudPhinder.py:257-300 | with the interaction energy equal to the cross term and a tree policy that covers the members, the merged ledgers stay exact |
| Groups.ConsistentLabel | CloudPhinder.py:240-247 | a processed particle's label is a live group with an exact ledger |
| Groups.ConsistentFound | CloudPhinder.py:207-217 | founding preserves the whole invariant |
| Groups.LedgersJoin | CloudPhinder.py:318-333 | after an attach every live group's ledger is still exact |
| Groups.ConsistentJoin | CloudPhinder.py:240-243 | an attach, stamped or not, preserves the whole invariant |
| Groups.LedgersMerge | CloudPhinder.py:257-311 | after a merge every live group's ledger is still exact |
| Groups.ConsistentMerge | CloudPhinder.py:245-311 | a merge, stamped or not, preserves the whole invariant |
| Extract.Members | CloudPhinder.py:337-343 | every listed particle lies below the bound and carries the label (`Extract.MembersExact` adds that all of them are listed, in increasing order) |
| Extract.MembersExact | CloudPhinder.py:337-343 | a label's member list holds, in increasing order, exactly the particles carrying that label |
| Extract.BoundGroups | CloudPhinder.py:337-343 | the keys are exactly the non-negative labels in use, each mapped to its members in index order |
| Assembly.StampArray | CloudPhinder.py:307-308 | the array becomes `Stamp` of its old contents |
| Assembly.RelabelArray | CloudPhinder.py:302 | the array becomes `Relabel` of its old contents |
| Assembly.Found | CloudPhinder.py:229-238 | the dictionaries become `Founded`, `assigned_group[i] = i`, nothing else changes, and the invariant holds one particle further |
| Assembly.JoinLedgers | CloudPhinder.py:318-332 | the dictionaries become `Joined`; group `g` gains member `i` |
| Assembly.Join | CloudPhinder.py:316-333 | the dictionaries become `Joined`; `i` takes label `g`; `stamped` is the virial test on the grown group, and exactly when it holds every member takes bound label `g` and `i` records the group's size, otherwise both arrays are unchanged (`JoinStamp`); the invariant holds one particle further |
| Assembly.MergeLedgers | CloudPhinder.py:257-300 | the dictionaries become `Merged`: A's list is `group_a + group_b` and key B is gone |
| Assembly.Merge | CloudPhinder.py:257-311 | the dictionaries become `Merged`; B's members are relabelled A; `stamped` is the virial test on the merged group, and exactly when it holds every member takes bound label A and records the merged size (`MergeStamp`); key B is gone; the invariant still holds |
| Assembly.Saddle | CloudPhinder.py:245-333 | B is merged into A and `i` joins A: the dictionaries become `Joined` of `Merged`, the merge stamp is followed by the attach stamp (`SaddleStamps`), the labels become `Relabel(lab, b, a)[i := a]`, and the invariant holds one particle further |
| Assembly.Step | CloudPhinder.py:204-333 | founds iff the row holds the sentinel or no denser neighbour (`MoveLabels`); otherwise attaches to the group that the nearest denser neighbour (and the second nearest, if any) carries, or, at a saddle between two different labels, merges the lighter into the heavier (the nearest's on a tie) and attaches; for each move it states the new dictionaries (`Founded`, `Joined`, `Joined` of `Merged`) and the bound stamps (`JoinStamp`, `SaddleStamps`), bundled in `MoveDicts`, and the new labels; only a founder adds a key; the invariant holds one particle further |
| Assembly.Link | CloudPhinder.py:240-333 | for a particle with a denser neighbour: the attach or the saddle merge as in `Step`, with its labels, dictionaries and stamps, and no new key |
| Assembly.Visit | CloudPhinder.py:204-333 | the move of `Step`, with its labels (`MoveLabels`), dictionaries and stamps (`MoveDicts`); the invariant holds one particle further, every group key is still a particle that `Founds` a group, the linking rule (`Linked`) extends to particle `i`, and every live group passing the virial test still has all its members stamped with its label (`BoundLive`) |
| Assembly.LinkStep | CloudPhinder.py:240-314 | a move that `MoveLabels` describes extends the linking rule from the particles before `i` to `i` |
| Assembly.BoundGroupsInside | CloudPhinder.py:337-343 | every bound group is non-empty, keyed by a particle index, lies inside one group (group `a` itself when `a` is live), and bound groups are disjoint |
| Assembly.BoundLiveFound | CloudPhinder.py:229-238 | a founder's group never passes the virial test (its kinetic and total energy are equal), and founding keeps `BoundLive` |
| Assembly.BoundLiveJoin | CloudPhinder.py:318-326 | the attach stamp keeps `BoundLive`: the grown group is stamped when it passes the test, and no member of another group is touched |
| Assembly.BoundLiveMerge | CloudPhinder.py:257-311 | the merge stamp keeps `BoundLive`: B is gone, the merged group is stamped when it passes the test, and no member of another group is touched |
| Assembly.BoundStep | CloudPhinder.py:204-333 | every move that `MoveDicts` describes keeps `BoundLive` |
| Assembly.BoundGroupsLive | CloudPhinder.py:305-308 | with `BoundLive` at the end, every live group passing the virial test is a key of the bound groups, whose list holds exactly the group's members |
| Assembly.Assemble | CloudPhinder.py:199-333 | after the loop the invariant holds for all particles, every group is keyed by a particle that `Founds` one, the final labels follow the linking rule (`Linked`), and every live group whose ledgers pass the virial test has all its members stamped with its label (`BoundLive`) |
| Assembly.ParticleGroups | CloudPhinder.py:171-345 | the returned groups partition the particles and their ledgers are exact for some dictionaries with those member lists, under which every group passing the virial test is a bound group holding exactly its members; every group is keyed by a particle with the sentinel or without a denser neighbour, the labels follow the linking rule, and the bound groups are disjoint and inside the groups |
| Linking.NearestUnique | CloudPhinder.py:222-223 | the nearest denser slot is unique |
| Linking.SecondUnique | CloudPhinder.py:222-224 | the second nearest denser slot is unique |
| Linking.LinkedKeep | CloudPhinder.py:302 | a relabelling that keeps equal labels equal among the particles before `upto` keeps them linked, since their denser neighbours come earlier |
| Linking.LinkedFound | CloudPhinder.py:229-238 | a founder keeps the earlier particles linked and is linked itself |
| Linking.LinkedJoin | CloudPhinder.py:240-242 | taking the label of the nearest denser neighbour (shared by the second nearest when there are two or more) links particle `i` |
| Linking.LinkedMerge | CloudPhinder.py:245-314 | relabelling B as A and giving `i` label A links `i` when its two nearest denser neighbours carry A and B |

## Left out

- Gravity kernels: `BruteForcePotential2`, the pykdgrav tree build and tree
  walk, and the constant `G` are floating-point and foreign code. They are
  the abstract functions of `Kernels`, and a tree is the list of particles
  it was built over.
- The neighbour query (`cKDTree(x).query`, line 182) is scipy. Its result
  is an input: rows of indices with the sentinel `n`, plus distances.
- Floating point: masses and energies are exact reals. The virial test with
  `E == KE` is taken as false, which is what the inf or nan comparison
  gives.
- The potential mode branch (`if not potential_mode`, line 181) is not
  modelled. `phi` is always `-rho`.
- Progress printing (lines 205-206, 336), `max_group_size` and the
  never-populated dictionaries (lines 184-198) are not modelled.
- `KineticEnergy` (line 114) and `PE_Increment` (line 163) are never
  called. `KineticEnergy` appears here only as the reference definition of
  a group's kinetic ledger. `KE`, `PE` and `VirialParameter` (lines 121-133)
  only feed the statistics of the bound groups: `VirialParameter` is called
  at line 639, and `KE` and `PE` only through it (line 132).
- The driver `CloudPhind`, all file I/O and orchestration, and io_tools.py
  are not part of this model.
- The dictionaries are one `Dicts` value passed from step to step rather
  than fields of an assembler object updated in place, so their update in
  place is not captured. In-place list mutation (`[:] = []`, `+=`) is
  modelled by value, which is sound because no two dictionary entries share
  a list.
- `Ledgers` says every live group has an entry in every dictionary. It does
  not say that the dictionaries have no other keys.
- Groups.PlantedAttach, Groups.PlantedMerge: the pending-list bound is
  stated as `|pending| <= ntree`, or an empty list, or a one-member group.
  With `ntree <= 0` a founder's pending list `[i]` is longer than `ntree`.
- Neighbours.NearestDenser: the ordering by distance breaks ties by slot,
  as a stable sort would.
- Assembly.ParticleGroups: the exact ledgers are stated for some
  dictionaries whose member lists are the returned groups, because the
  source returns only `groups`.
- Assembly.ParticleGroups: the linking rule (`Linked`) is stated in one
  direction only: every particle carries the label of its nearest denser
  neighbours. The converse, that two particles sharing a label are joined
  by a chain of such links, is not stated, so `Linked` alone does not rule
  out a labelling that puts every particle in one group.
- Assembly.ParticleGroups: a bound group is only promised for the groups
  that pass the virial test at the end. A group that passed it earlier and
  failed it after a later attach keeps its stamps, and so do the members of
  a bound group later merged away; those bound groups are described by
  `BoundGroupsInside`, not tied to a test.
- Assembly.ParticleGroups: requires every mass to be positive
  (`WellFormed`). The source accepts zero masses and only breaks where a
  sum of masses is zero, as the 0/0 of lines 160, 265 and 297-298.
- Assembly.ParticleGroups: a neighbour row of length 1 is taken as a row
  with no denser neighbour, so the particle founds a group. In the source,
  `min(cluster_ngb, len(x)) == 1` at line 182 makes the k-d tree query
  return one flat index per particle, and `ngb[i][1:]` at line 218 then
  raises.
- The label arrays are `int32` in the source (lines 199-202) and unbounded
  integers here. Labels are particle indices or -1, so they fit whenever
  there are fewer than 2^31 particles.
- Totals over all groups are not stated as one sum (for example, total
  mass over groups equals total particle mass). They follow from the
  per-group facts and the partition.
