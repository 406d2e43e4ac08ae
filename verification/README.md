# Lattice Green function assembly and coupled relaxation

This project models the two pieces of bookkeeping and control logic around
the numerics of a flexible-boundary dislocation simulation:

- **LGF assembly** (`calc_LGF.py`). `setBC` places the far-field boundary
  displacements for a point force. The assembly loop then builds the lattice
  Green function (LGF) column by column:
  - a unit force on each degree of freedom of each region-2 atom;
  - a correction by the force-constant matrix D;
  - a solve restricted to the "in" block;
  - a checkpoint after every atom.
- **Relaxation coupling** (`relaxation_wlammps.py`). The script body checks
  and loads the LGF:
  - it compares the stored region sizes with the grid's;
  - it checks the shape and the update method;
  - it rotates every 3x3 block into the dislocation frame, through an index
    mapping for the perfect-bulk LGF.

  `relaxation_cycle` relaxes the core, then displaces the atoms by the LGF
  response to the region-2 forces. A "123" method moves every atom by a
  uniformly capped step. A "23" method leaves the core where it is. The outer
  loop repeats cycles until the largest force component is below the
  tolerance, the forces blow up, or the iteration budget is spent. It logs
  the largest force component of every iteration.

The numerics are parameters of the model, given as function-valued fields of
datatypes. The parameters are:

- the continuum Green function `elastic.G_largeR`, with its Fourier tables fixed;
- `np.sqrt` and `np.arctan2`;
- the conjugate-gradient solver `sla.cg`;
- the two LAMMPS runs (minimise-then-forces, and forces only).

Their values are arbitrary, and most properties hold whatever they compute.
Two assumptions are stated where they are needed:

- A lemma that needs the square root to be exact requires `ExactSqrt`.
- `LGFAssembly.ColumnLength` requires the solver to answer a vector of its
  right-hand side's length.

The imperative code is modelled imperatively:

- `setBC` fills a fresh array row by row.
- The assembly loop grows G and the list of saved matrices.
- The unit force is an array corrected in place.
- `relaxation_cycle` updates the position array in place.
- The rotation fills a two-dimensional array of blocks.
- The outer loop reassigns the forces and appends to the log.

Each of these methods is proved equal to a specification function (for
example `BoundaryField`, `Stack`, `Checkpoints`, `CycleResult`, `Iterate`).
The promised properties are lemmas about those functions.

The modules are:

- `Numerics`: vectors, matrices and numpy's reshape.
- `LGFAssembly`: `calc_LGF.py`.
- `UpdateMethods`: the four method names.
- `LGFSetup`: LGF checks and rotation.
- `Coupling`: the relaxation cycle and the outer loop.

Two facts about the code shape the model:

- D has `3*size_in` rows and `3*size_all` columns. The in-place
  `f += D.dot(u_bc)` at calc_LGF.py:155 adds to a force of length
  `3*size_in`, so it only works when D has `3*size_in` rows.
- The displacement cap at relaxation_wlammps.py:183 compares the largest
  per-atom displacement length with maxdisp.

## Model

| member | source | states |
|---|---|---|
| LGFAssembly.ModTwoPi | calc_LGF.py:48-49 | On reals, Python's floor modulo by 2*pi lands in [0, 2*pi). It keeps an angle already there and adds one period to an angle in [-2*pi, 0). |
| LGFAssembly.ModTwoPiPeriods | calc_LGF.py:48-49 | The reduced angle differs from the original by a whole number of periods. |
| LGFAssembly.NormalizeAngle | calc_LGF.py:47-51 | The normalised angle is always in [0, 2*pi). It is exactly 0 when the magnitude is at most 1e-8. It is unchanged in (1e-8, 2*pi), and one period up in [-2*pi, -1e-8). |
| LGFAssembly.Response | calc_LGF.py:43-54 | One far-field row computes R and phi from the in-plane separation and normalises phi. G_largeR(R, phi).f is then the negative of the continuum displacement FarFieldDisplacement. |
| LGFAssembly.SubtractResponse | calc_LGF.py:54 | `u_ff -= G.f` on a zero row leaves exactly the far-field displacement in that row. Every other row is unchanged. |
| LGFAssembly.SetBC | calc_LGF.py:9-56 | The result has size_all rows. Every row below size_in is exactly zero. Every far-field row k is -G_largeR(R, phi).f[i] for atom k (BoundaryField). |
| LGFAssembly.RadiusIsDistance | calc_LGF.py:43-45 | With an exact square root and a0 >= 0, R is non-negative. R^2 = a0^2 (dm^2 + dn^2). |
| LGFAssembly.BoundaryFieldInPlane | calc_LGF.py:43-47 | The boundary field depends only on the in-plane separations (dm, dn) from the source atom. Two grids whose separations agree row by row give the same field. |
| LGFAssembly.BoundaryFieldIgnoresT | calc_LGF.py:43-45 | The t coordinate is ignored: grids that agree on m and n give the same field, whatever their t. |
| LGFAssembly.BoundaryFieldTranslationInvariant | calc_LGF.py:43-47 | Translating the whole grid by one (dm, dn, dt) leaves the boundary field unchanged. |
| LGFAssembly.UnitForceArray | calc_LGF.py:145-148 | The fresh force array is the unit force of length 3*size_in with a single 1 at 3j+d. |
| LGFAssembly.UnitForceRows | calc_LGF.py:145-151 | Reshaped to (size_in, 3), the unit force has the unit vector along d in row j. Every other row is zero. |
| LGFAssembly.UnitForceBoundary | calc_LGF.py:151 | For the unit force on (j, d), the far-field row of atom k is minus column d of G_largeR at that atom's (R, phi). |
| LGFAssembly.AddInPlace | calc_LGF.py:155 | `f += corr` adds the correction element by element. |
| LGFAssembly.CorrectForce | calc_LGF.py:145-155 | The corrected force is the unit force plus D applied to the flattened boundary field of that unit force (CorrectedForce). |
| LGFAssembly.LeadingBlock | calc_LGF.py:159 | The solve sees D[0:n, 0:n], an n x n matrix. |
| LGFAssembly.SolveColumn | calc_LGF.py:145-165 | One inner pass gives the first 3*size_123 entries of the cg solution on the leading block for the corrected force. The convergence flag is ignored (Column). |
| LGFAssembly.ColumnLength | calc_LGF.py:159-167 | Every column has 3*size_123 entries when the solver answers a vector of its right-hand side's length. |
| LGFAssembly.SolveAtom | calc_LGF.py:144-169 | The inner loop yields the columns of atom j for directions 0, 1, 2, in that order. |
| LGFAssembly.DirectionsAt | calc_LGF.py:144-167 | Entry e of an atom's columns is the column of direction e. |
| LGFAssembly.StackLength | calc_LGF.py:143-167 | After atoms lo..hi-1, G has 3*(hi-lo) columns. |
| LGFAssembly.StackAt | calc_LGF.py:164-167 | Column 3*(j-jmin)+d of G is the column for (j, d). |
| LGFAssembly.StackSplit | calc_LGF.py:143-171 | Assembling a range in one run gives the columns of two consecutive sub-ranges, concatenated in order. |
| LGFAssembly.CheckpointsArePrefixes | calc_LGF.py:143-171 | Checkpoint k holds exactly the first 3(k+1) columns of the final G. Saved columns never change. |
| LGFAssembly.AtomRange | calc_LGF.py:139-140 | A negative LGF_jmin defaults to size_1 and a negative LGF_jmax to size_12-1, independently. A non-negative bound is kept. |
| LGFAssembly.DefaultRangeIsRegion2 | calc_LGF.py:139-143 | With both bounds defaulted the loop covers exactly region 2, and G gets 3*size_2 columns. |
| LGFAssembly.StopAtom | calc_LGF.py:143-148 | The loop completes every atom of the range when it lies inside the "in" region. Otherwise it stops at the first atom outside it, where `f[3j+d] = 1` raises. An empty range completes nothing. |
| LGFAssembly.AssembleAtom | calc_LGF.py:144-171 | One pass of the outer loop body for an atom inside the "in" region extends G and the list of saves to that atom. |
| LGFAssembly.AssembleRange | calc_LGF.py:143-171 | G holds the stacked columns of the atoms the loop completes. The saves are the matrix after each completed atom. `ok` is false exactly when the range runs past the "in" region. |
| LGFAssembly.AssembleLGF | calc_LGF.py:139-171 | With the default range applied, G and the saves are the columns and checkpoints of the atoms completed from LGF_jmin on. `ok` is false exactly when that range runs past the "in" region. |
| UpdateMethods.ParseMethod | relaxation_wlammps.py:180-199 | Exactly the four names dislLGF123, perfbulkLGF123, dislLGF23 and perfbulkLGF23 are accepted, each as itself. |
| UpdateMethods.ParseMethodName | relaxation_wlammps.py:180-199 | Every method is recognised by its own name. |
| UpdateMethods.NameTests | relaxation_wlammps.py:180-192 | The "123" test of the cycle, and the "disl" test of the rotation at lines 306 and 313, pick out exactly the names the script compares against. |
| LGFSetup.CheckSizes | relaxation_wlammps.py:296-301 | The LGF passes iff its stored size_1, size_12 and size_123 all match the grid's. Otherwise the first mismatch, in that order, is reported. |
| LGFSetup.Block | relaxation_wlammps.py:311 | Block (i, j) holds G[3i+a][3j+c] at entry (a, c). |
| LGFSetup.SourceBlock | relaxation_wlammps.py:309-321 | The disl methods read block (i, j) itself. The perfbulk methods read (i_b, j_b - size_1), where (i_b, j_b) = mapping[i][j + size_1]. |
| LGFSetup.Dense | relaxation_wlammps.py:305 | A size_123 x size_2 grid of blocks lays out as a (3*size_123, 3*size_2) matrix. |
| LGFSetup.DenseEntry | relaxation_wlammps.py:311 | `G_mnt[i*3:(i+1)*3, j*3:(j+1)*3]` is block (i, j) of the layout. |
| LGFSetup.RotatedBlocks | relaxation_wlammps.py:309-321 | There is one rotated block M^T.B.M per (i, j) of size_123 x size_2. |
| LGFSetup.RotateLGF | relaxation_wlammps.py:305-321 | The nested loops fill G_mnt with M^T.G[src].M for every block, where src is SourceBlock. The result is a (3*size_123, 3*size_2) matrix. |
| LGFSetup.DislSourcesInRange | relaxation_wlammps.py:306-311 | For a dislocation LGF of the checked shape, every block the loops read lies inside G. |
| LGFSetup.IdentityMappingIsDisl | relaxation_wlammps.py:309-321 | With the identity mapping, the perfect-bulk rotation equals the dislocation rotation. |
| LGFSetup.LoadLGF | relaxation_wlammps.py:295-324 | Size mismatches are reported first, in order. Next an unknown method, then a wrong shape (disl methods only). Success happens exactly when none applies, and then gives the rotated LGF of shape (3*size_123, 3*size_2). |
| Coupling.MaxNormSq | relaxation_wlammps.py:183 | `max(sum(u**2) for u in disp)` is at least every atom's squared displacement and is attained by one of them. |
| Coupling.CycleScale | relaxation_wlammps.py:183-188 | The scale is in (0, 1]. It is 1 below maxdisp. Otherwise scale*dispmax == maxdisp. |
| Coupling.Forces2 | relaxation_wlammps.py:177 | forces_2 has 3*(size_12-size_1) entries, from the atoms size_1..size_12-1 only. |
| Coupling.Displacement | relaxation_wlammps.py:182 | G.forces_2 reshaped gives one displacement per atom of regions 1+2+3. |
| Coupling.CoreRelax | relaxation_wlammps.py:176-177 | The fresh grid holds the relaxed positions of regions 1+2+3, and forces_2 is the flattened region-2 forces. |
| Coupling.ScaledUpdate | relaxation_wlammps.py:190 | `grid += scale*disp` moves every atom by scale times its displacement. |
| Coupling.TailUpdate | relaxation_wlammps.py:195-196 | `grid[lo:] -= update` changes only rows lo.. and leaves rows below lo untouched. |
| Coupling.FullUpdate | relaxation_wlammps.py:182-190 | The "123" update moves every atom by CycleScale times its LGF displacement. |
| Coupling.PartialUpdate | relaxation_wlammps.py:195-196 | Through the double negation, the "23" update moves atom q >= size_1 by triple q of G.forces_2 and keeps the core. |
| Coupling.RelaxationCycle | relaxation_wlammps.py:149-201 | The in-place cycle returns exactly CycleResult: the "123", "23" or error outcome. |
| Coupling.ScaledStepBounded | relaxation_wlammps.py:183-188 | With an exact square root, scale^2 * |disp[k]|^2 <= maxdisp^2 for every atom k. |
| Coupling.AtomStepBounded | relaxation_wlammps.py:183-190 | In a "123" update no atom moves farther than maxdisp. |
| Coupling.FullCycleBounded | relaxation_wlammps.py:180-190 | A "123" cycle returns all size_123 atoms, each at most maxdisp from its relaxed position. |
| Coupling.FullCycleExact | relaxation_wlammps.py:182-190 | If the largest displacement is below maxdisp, a "123" cycle moves every atom by exactly its G.forces_2 triple. |
| Coupling.PartialCycleKeepsCore | relaxation_wlammps.py:192-196 | A "23" cycle keeps atoms 0..size_1-1 at their relaxed positions. It moves atom k >= size_1 by rows 3k..3k+2 of G.forces_2, unscaled. |
| Coupling.CycleUsesRegion2Forces | relaxation_wlammps.py:176-182 | Only the forces of atoms size_1..size_12-1 enter the update. LAMMPS answers that agree on the relaxed positions, on those forces and on the square root give the same cycle result. |
| Coupling.CycleRejectsUnknownMethod | relaxation_wlammps.py:180-199 | A cycle fails iff the name is not one of the four, or a "123" method meets an empty region 1+2+3. |
| Coupling.MaxAbsForce | relaxation_wlammps.py:342 | force_max bounds every absolute force component and equals one of them. |
| Coupling.SumSq | relaxation_wlammps.py:341 | The squared force norm is non-negative. |
| Coupling.Forces12 | relaxation_wlammps.py:336 | forces_12 has 3*size_12 entries, initially and after every cycle (line 366). |
| Coupling.ComputeForces12 | relaxation_wlammps.py:335-336 | Cutting the LAMMPS forces to regions 1+2 and flattening gives Forces12, here and after every cycle (lines 365-366). |
| Coupling.RelaxationLoop | relaxation_wlammps.py:335-366 | The loop's outcome and force_evolution equal the specification Iterate, with maxouteriter iterations (none if negative). |
| Coupling.LogBounded | relaxation_wlammps.py:339-348 | The log never exceeds the iteration budget. A run that spends the budget logs exactly maxouteriter values. |
| Coupling.FirstExit | relaxation_wlammps.py:339-353 | Every logged value but the last is >= ftol. The run converged iff the last is < ftol. A run that did not converge never logged a value below ftol. |
| Coupling.ConvergenceTestedFirst | relaxation_wlammps.py:349-353 | Forces below ftol end the run as converged whatever their norm. |
| Coupling.DivergenceIsSquaredNorm | relaxation_wlammps.py:341 | With an exact square root, norm > 100 iff the squared norm > 10000. |
| Coupling.DivergenceStops | relaxation_wlammps.py:349-353 | Unconverged forces with squared norm > 10000 stop the run at once as diverged, with that iteration logged. |

## Left out

- LAMMPS (`lammps_settings`, `init_lammps`, `lammps_minimize_getforces`,
  `lammps_getforces`) is a pair of oracle functions of the atom positions
  written to the data file. The `antiplane` flag, the pair style and the
  minimiser settings are folded into those oracles.
- The conversion of the positions back to atom records and the writing of
  the data file are modelled as passing the positions to the oracles.
- `elastic.*` (the stiffness tensor, the Fourier coefficients, `G_largeR`)
  is not part of this model. `G_largeR` is an arbitrary function of (R, phi)
  to 3x3 matrices.
- The conjugate-gradient solve is an arbitrary function of the matrix and
  the right-hand side. Its convergence flag is only logged by the source.
- Floating point is not modelled. All arithmetic is on mathematical reals,
  with pi as the 16-digit decimal np.pi prints, and the square root is
  assumed exact where a lemma needs it.
- LGFAssembly.ModTwoPi: the remainder is taken on reals. CPython's float
  remainder can round a tiny negative angle up to exactly 2*pi. The source
  only reduces angles with |phi| > 1e-8, so it never meets that case.
- File I/O (mmread, h5py, `np.save`, `np.load`, `IO_xyz`, `IO_lammps`,
  `setup.readinputs`) is not modelled. The same goes for argparse, logging,
  timing and the unit-cell volume. Each `np.save` of G is modelled as
  appending the matrix to the list of saves.
- The sparse storage of D is not modelled. D is a dense matrix of rows.
- LGFSetup.LoadLGF: requires the mapping to point inside G for the
  perfect-bulk methods, so the following behaviour of the source is not
  modelled:
  - An entry past G's edge slices a short or empty block out of G, and the
    nested `np.dot` then raises ValueError.
  - A negative entry gives a wrapped or empty slice.
  - An IndexError is raised only when `mapping[i][j+size_1]` indexes past the
    mapping array itself.
- Coupling.RelaxationCycle: requires maxdisp > 0 and
  size_1 <= size_12 <= size_123. The script only uses the default
  maxdisp = 100, and the region sizes come from the grid.
- LGFAssembly.AssembleLGF: an atom index at or beyond size_in stops the loop
  with `ok` false, where the source raises IndexError.
