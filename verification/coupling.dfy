/** The coupled relaxation (relaxation_wlammps.py): a relaxation cycle relaxes
    the core (region 1) in LAMMPS, then displaces the atoms with the LGF
    applied to the region-2 forces; the outer loop repeats cycles until the
    largest force component drops below the tolerance, the forces blow up,
    or the iteration budget runs out, logging the largest force component of
    every iteration.

    LAMMPS is a parameter of the model: for a given atom data file (the
    positions of regions 1+2+3, in the m,n,t frame) it answers the relaxed
    position and force of each atom after a core minimisation, and the force
    on each atom without one. np.sqrt is a parameter too. */
module Coupling {
  import opened Numerics
  import opened UpdateMethods

  /** What LAMMPS reports for one atom after the core minimisation. */
  datatype AtomState = AtomState(pos: Vec3, force: Vec3)

  /** The collaborators: the minimise-then-compute-forces run and the
      compute-forces run of LAMMPS, as functions of the atom data file and
      the atom index, and np.sqrt. */
  datatype Env = Env(
    relax: (seq<Vec3>, nat) -> AtomState,
    forces: (seq<Vec3>, nat) -> Vec3,
    sqrt: real -> real)

  /** Largest squared per-atom displacement, max(sum(u**2) for u in disp). */
  function MaxNormSq(disp: seq<Vec3>): (m: real)
    requires |disp| > 0
    ensures forall k :: 0 <= k < |disp| ==> NormSq3(disp[k]) <= m
    ensures exists k :: 0 <= k < |disp| && NormSq3(disp[k]) == m
    decreases |disp|
  {
    if |disp| == 1 then NormSq3(disp[0])
    else
      var rest := MaxNormSq(disp[..|disp| - 1]);
      assert forall k :: 0 <= k < |disp| - 1 ==> disp[..|disp| - 1][k] == disp[k];
      if NormSq3(disp[|disp| - 1]) > rest then NormSq3(disp[|disp| - 1]) else rest
  }

  /** The displacement scale of a "123" update: 1 while the largest
      displacement length dispmax is below maxdisp, maxdisp/dispmax otherwise,
      so the atom that moves most moves exactly maxdisp. It never enlarges the
      field. */
  function CycleScale(sqrt: real -> real, disp: seq<Vec3>, maxdisp: real): (s: real)
    requires |disp| > 0 && maxdisp > 0.0
    ensures 0.0 < s <= 1.0
    ensures sqrt(MaxNormSq(disp)) < maxdisp ==> s == 1.0
    ensures sqrt(MaxNormSq(disp)) >= maxdisp ==> s * sqrt(MaxNormSq(disp)) == maxdisp
  {
    var dispmax := sqrt(MaxNormSq(disp));
    if dispmax < maxdisp then 1.0 else maxdisp / dispmax
  }

  /** The region-2 forces after the core relaxation, flattened: forces_2. */
  function Forces2(env: Env, config: seq<Vec3>, size1: nat, size12: nat): (f: seq<real>)
    requires size1 <= size12
    ensures |f| == 3 * (size12 - size1)
  {
    Flatten(seq(size12 - size1, i requires 0 <= i < size12 - size1 => env.relax(config, size1 + i).force))
  }

  /** The LGF response G.forces_2, one triple per atom of regions 1+2+3. */
  function Displacement(env: Env, config: seq<Vec3>, size1: nat, size12: nat, size123: nat, g: Matrix): (disp: seq<Vec3>)
    requires size1 <= size12 && IsMatrix(g, 3 * size123, 3 * (size12 - size1))
    ensures |disp| == size123
  {
    Reshape3(MatVec(g, Forces2(env, config, size1, size12)))
  }

  /** The relaxed positions of regions 1+2+3 before the LGF update. */
  function Relaxed(env: Env, config: seq<Vec3>, size123: nat): (grid: seq<Vec3>)
    ensures |grid| == size123
  {
    seq(size123, k requires 0 <= k < size123 => env.relax(config, k).pos)
  }

  /** Every atom moved by s times its displacement. */
  function MoveAll(grid: seq<Vec3>, disp: seq<Vec3>, s: real): (r: seq<Vec3>)
    requires |disp| == |grid|
    ensures |r| == |grid|
  {
    seq(|grid|, k requires 0 <= k < |grid| => Add3(grid[k], Scale3(s, disp[k])))
  }

  /** Atoms lo.. moved by their displacement, atoms below lo kept. */
  function MoveFrom(grid: seq<Vec3>, disp: seq<Vec3>, lo: nat): (r: seq<Vec3>)
    requires |disp| == |grid|
    ensures |r| == |grid|
  {
    seq(|grid|, k requires 0 <= k < |grid| => if k < lo then grid[k] else Add3(grid[k], disp[k]))
  }

  /** What one relaxation cycle returns: for a "123" method every atom moves
      by the uniformly scaled LGF displacement; for a "23" method the core
      stays where LAMMPS left it and every other atom moves by its LGF
      displacement, unscaled. An unknown method, and a "123" update of an
      empty region 1+2+3 (max of nothing), raise: None. */
  function CycleResult(env: Env, config: seq<Vec3>, size1: nat, size12: nat, size123: nat,
                       g: Matrix, name: string, maxdisp: real): (r: Option<seq<Vec3>>)
    requires size1 <= size12 && IsMatrix(g, 3 * size123, 3 * (size12 - size1)) && maxdisp > 0.0
  {
    var grid := Relaxed(env, config, size123);
    var disp := Displacement(env, config, size1, size12, size123, g);
    match ParseMethod(name)
    case None => None
    case Some(m) =>
      if IsFull(m) then
        if size123 == 0 then None
        else Some(MoveAll(grid, disp, CycleScale(env.sqrt, disp, maxdisp)))
      else Some(MoveFrom(grid, disp, size1))
  }

  /** Rows lo.. of G times f are the entries 3*lo.. of G times f. */
  lemma MatVecRows(g: Matrix, f: seq<real>, lo: nat)
    requires lo <= |g| && forall i :: 0 <= i < |g| ==> |g[i]| == |f|
    ensures MatVec(g[lo..], f) == MatVec(g, f)[lo..]
  {
  }

  /** Negating rows 3*lo.. of a flat vector and reshaping gives the negated
      triples lo.. of the reshaped vector. */
  lemma NegatedTail(full: seq<real>, lo: nat, q: nat)
    requires |full| % 3 == 0 && 3 * lo <= |full| && lo <= q < |full| / 3
    ensures |NegVec(full[3 * lo..])| % 3 == 0
    ensures q - lo < |Reshape3(NegVec(full[3 * lo..]))| && q < |Reshape3(full)|
    ensures Reshape3(NegVec(full[3 * lo..]))[q - lo] == Neg3(Reshape3(full)[q])
  {
    var tail := NegVec(full[3 * lo..]);
    assert |tail| == |full| - 3 * lo;
    assert 3 * q == 3 * lo + 3 * (q - lo);
    assert tail[3 * (q - lo)] == -full[3 * q];
    assert tail[3 * (q - lo) + 1] == -full[3 * q + 1];
    assert tail[3 * (q - lo) + 2] == -full[3 * q + 2];
  }

  /** Subtracting a negated vector adds it. */
  lemma SubNeg(p: Vec3, d: Vec3)
    ensures Sub3(p, Neg3(d)) == Add3(p, d)
  {
  }

  /** lammps_minimize_getforces and the forces_2 slice: the relaxed
      positions of regions 1+2+3 in a fresh array, and the flattened
      region-2 forces. */
  method CoreRelax(env: Env, config: seq<Vec3>, size1: nat, size12: nat, size123: nat)
    returns (grid: array<Vec3>, forces2: seq<real>)
    requires size1 <= size12 <= size123
    ensures fresh(grid)
    ensures grid[..] == Relaxed(env, config, size123)
    ensures forces2 == Forces2(env, config, size1, size12)
  {
    grid := new Vec3[size123](k requires 0 <= k < size123 => env.relax(config, k).pos);
    var forces := seq(size123, k requires 0 <= k < size123 => env.relax(config, k).force);
    forces2 := Flatten(forces[size1..size12]);
    assert forces[size1..size12] == seq(size12 - size1, i requires 0 <= i < size12 - size1 => env.relax(config, size1 + i).force);
  }

  /** grid += scale*disp, in place. */
  method ScaledUpdate(grid: array<Vec3>, disp: seq<Vec3>, scale: real)
    requires |disp| == grid.Length
    modifies grid
    ensures grid[..] == MoveAll(old(grid[..]), disp, scale)
  {
    for k := 0 to grid.Length
      invariant forall q :: 0 <= q < k ==> grid[q] == Add3(old(grid[q]), Scale3(scale, disp[q]))
      invariant forall q :: k <= q < grid.Length ==> grid[q] == old(grid[q])
    {
      grid[k] := Add3(grid[k], Scale3(scale, disp[k]));
    }
  }

  /** grid[lo:] -= update, in place; rows below lo untouched. */
  method TailUpdate(grid: array<Vec3>, lo: nat, update: seq<Vec3>)
    requires lo <= grid.Length && |update| == grid.Length - lo
    modifies grid
    ensures forall q :: 0 <= q < lo ==> grid[q] == old(grid[q])
    ensures forall q :: lo <= q < grid.Length ==> grid[q] == Sub3(old(grid[q]), update[q - lo])
  {
    for k := lo to grid.Length
      invariant forall q :: 0 <= q < lo ==> grid[q] == old(grid[q])
      invariant forall q :: lo <= q < k ==> grid[q] == Sub3(old(grid[q]), update[q - lo])
      invariant forall q :: k <= q < grid.Length ==> grid[q] == old(grid[q])
    {
      grid[k] := Sub3(grid[k], update[k - lo]);
    }
  }

  /** The "123" update: dispmax from the largest displacement, the uniform
      scale, then grid += scale*disp in place. */
  method FullUpdate(env: Env, grid: array<Vec3>, disp: seq<Vec3>, maxdisp: real)
    requires |disp| == grid.Length > 0 && maxdisp > 0.0
    modifies grid
    ensures grid[..] == MoveAll(old(grid[..]), disp, CycleScale(env.sqrt, disp, maxdisp))
  {
    var dispmax := env.sqrt(MaxNormSq(disp));
    var scale := if dispmax < maxdisp then 1.0 else maxdisp / dispmax;
    ScaledUpdate(grid, disp, scale);
  }

  /** The "23" update: grid[lo:] -= -(rows 3*lo.. of the LGF response)
      reshaped, so that atom q >= lo moves by triple q of the full response. */
  method PartialUpdate(grid: array<Vec3>, lo: nat, ghost full: seq<real>, tail: seq<real>)
    requires lo <= grid.Length && |full| == 3 * grid.Length && tail == full[3 * lo..]
    modifies grid
    ensures grid[..] == MoveFrom(old(grid[..]), Reshape3(full), lo)
  {
    var update := Reshape3(NegVec(tail));
    TailUpdate(grid, lo, update);
    forall q | lo <= q < grid.Length
      ensures grid[q] == Add3(old(grid[q]), Reshape3(full)[q])
    {
      NegatedTail(full, lo, q);
      SubNeg(old(grid[q]), Reshape3(full)[q]);
    }
  }

  /** relaxation_cycle: relax the core, then update the positions in place,
      the "23" branch through the row slice G[3*size_1:] and a double negation. */
  method RelaxationCycle(env: Env, config: seq<Vec3>, size1: nat, size12: nat, size123: nat,
                         g: Matrix, name: string, maxdisp: real) returns (r: Option<seq<Vec3>>)
    requires size1 <= size12 <= size123 && IsMatrix(g, 3 * size123, 3 * (size12 - size1)) && maxdisp > 0.0
    ensures r == CycleResult(env, config, size1, size12, size123, g, name, maxdisp)
  {
    var grid, forces2 := CoreRelax(env, config, size1, size12, size123);
    var parsed := ParseMethod(name);
    if parsed.Some? && IsFull(parsed.value) {
      if size123 == 0 {
        return None;
      }
      FullUpdate(env, grid, Reshape3(MatVec(g, forces2)), maxdisp);
      r := Some(grid[..]);
    } else if parsed.Some? {
      var tail := MatVec(g[3 * size1..], forces2);
      MatVecRows(g, forces2, 3 * size1);
      PartialUpdate(grid, size1, MatVec(g, forces2), tail);
      r := Some(grid[..]);
    } else {
      r := None;
    }
  }

  /** Scaling a vector by s scales its squared length by s^2. */
  lemma NormSqScale(s: real, v: Vec3)
    ensures NormSq3(Scale3(s, v)) == (s * s) * NormSq3(v)
  {
    assert (s * v.x) * (s * v.x) == (s * s) * (v.x * v.x);
    assert (s * v.y) * (s * v.y) == (s * s) * (v.y * v.y);
    assert (s * v.z) * (s * v.z) == (s * s) * (v.z * v.z);
  }

  /** The capped step: with s = maxdisp/dispmax and q at most dispmax^2,
      s^2 q is at most maxdisp^2, with equality at q = dispmax^2. */
  lemma CappedSquare(s: real, q: real, dm: real, maxdisp: real)
    requires 0.0 < maxdisp <= dm && s * dm == maxdisp && 0.0 <= q <= dm * dm
    ensures (s * s) * q <= maxdisp * maxdisp
    ensures q == dm * dm ==> (s * s) * q == maxdisp * maxdisp
  {
    MulMono(s * s, q, dm * dm);
    assert (s * s) * (dm * dm) == (s * dm) * (s * dm);
  }

  /** The scale rule on plain reals: s = 1 below the cap, s*dm = maxdisp at or
      above it; either way s^2 q stays within maxdisp^2 when q <= dm^2. */
  lemma ScaleRuleBound(s: real, q: real, dm: real, maxdisp: real)
    requires 0.0 <= q <= dm * dm && 0.0 <= dm && 0.0 < maxdisp
    requires dm < maxdisp ==> s == 1.0
    requires dm >= maxdisp ==> s * dm == maxdisp
    ensures (s * s) * q <= maxdisp * maxdisp
  {
    if dm < maxdisp {
      SquareMono(dm, maxdisp);
    } else {
      CappedSquare(s, q, dm, maxdisp);
    }
  }

  /** The scale factor of a "123" update, squared, times any atom's squared
      displacement stays within maxdisp^2 (given an exact square root): the
      uniform scale brings the largest displacement down to maxdisp and every
      other one below it. */
  lemma ScaledStepBounded(sqrt: real -> real, disp: seq<Vec3>, maxdisp: real, k: nat)
    requires ExactSqrt(sqrt) && |disp| > 0 && maxdisp > 0.0 && k < |disp|
    ensures CycleScale(sqrt, disp, maxdisp) * CycleScale(sqrt, disp, maxdisp) * NormSq3(disp[k]) <= maxdisp * maxdisp
  {
    var m := MaxNormSq(disp);
    SqrtAt(sqrt, m);
    ScaleRuleBound(CycleScale(sqrt, disp, maxdisp), NormSq3(disp[k]), sqrt(m), maxdisp);
  }

  /** Moving p by s*d moves it by a squared distance of s^2 |d|^2. */
  lemma StepBound(p: Vec3, d: Vec3, s: real, bound: real)
    requires s * s * NormSq3(d) <= bound
    ensures NormSq3(Sub3(Add3(p, Scale3(s, d)), p)) <= bound
  {
    assert Sub3(Add3(p, Scale3(s, d)), p) == Scale3(s, d);
    NormSqScale(s, d);
  }

  /** An atom moved by the scaled displacement of a "123" update ends at
      most maxdisp from where it started. */
  lemma AtomStepBounded(sqrt: real -> real, grid: seq<Vec3>, disp: seq<Vec3>, maxdisp: real, k: nat)
    requires ExactSqrt(sqrt) && |disp| > 0 && maxdisp > 0.0 && k < |disp| && k < |grid|
    ensures NormSq3(Sub3(Add3(grid[k], Scale3(CycleScale(sqrt, disp, maxdisp), disp[k])), grid[k])) <= maxdisp * maxdisp
  {
    ScaledStepBounded(sqrt, disp, maxdisp, k);
    StepBound(grid[k], disp[k], CycleScale(sqrt, disp, maxdisp), maxdisp * maxdisp);
  }

  /** A "123" cycle moves every atom by the same fraction of its LGF
      displacement, and by at most maxdisp. */
  lemma {:induction false} FullCycleBounded(env: Env, config: seq<Vec3>, size1: nat, size12: nat, size123: nat,
                                            g: Matrix, name: string, maxdisp: real)
    requires size1 <= size12 && IsMatrix(g, 3 * size123, 3 * (size12 - size1)) && maxdisp > 0.0
    requires ExactSqrt(env.sqrt) && ParseMethod(name).Some? && IsFull(ParseMethod(name).value) && size123 > 0
    ensures var r := CycleResult(env, config, size1, size12, size123, g, name, maxdisp);
      var grid := Relaxed(env, config, size123);
      r.Some? && |r.value| == size123 &&
      forall k :: 0 <= k < size123 ==> NormSq3(Sub3(r.value[k], grid[k])) <= maxdisp * maxdisp
  {
    var r := CycleResult(env, config, size1, size12, size123, g, name, maxdisp);
    var grid := Relaxed(env, config, size123);
    var disp := Displacement(env, config, size1, size12, size123, g);
    forall k | 0 <= k < size123
      ensures NormSq3(Sub3(r.value[k], grid[k])) <= maxdisp * maxdisp
    {
      AtomStepBounded(env.sqrt, grid, disp, maxdisp, k);
    }
  }

  /** A "123" cycle whose largest displacement is below maxdisp applies the
      LGF displacement exactly. */
  lemma FullCycleExact(env: Env, config: seq<Vec3>, size1: nat, size12: nat, size123: nat,
                       g: Matrix, name: string, maxdisp: real)
    requires size1 <= size12 && IsMatrix(g, 3 * size123, 3 * (size12 - size1)) && maxdisp > 0.0
    requires ExactSqrt(env.sqrt) && ParseMethod(name).Some? && IsFull(ParseMethod(name).value) && size123 > 0
    requires MaxNormSq(Displacement(env, config, size1, size12, size123, g)) < maxdisp * maxdisp
    ensures var r := CycleResult(env, config, size1, size12, size123, g, name, maxdisp);
      var grid := Relaxed(env, config, size123);
      var disp := Displacement(env, config, size1, size12, size123, g);
      r.Some? && |r.value| == size123 &&
      forall k :: 0 <= k < size123 ==> r.value[k] == Add3(grid[k], disp[k])
  {
    var disp := Displacement(env, config, size1, size12, size123, g);
    SqrtBelow(env.sqrt, MaxNormSq(disp), maxdisp);
    forall k | 0 <= k < size123
      ensures Scale3(1.0, disp[k]) == disp[k]
    {
    }
  }

  /** A "23" cycle leaves region 1 where the core relaxation put it and moves
      atom k of regions 2+3 by rows 3k..3k+2 of G.forces_2, unscaled. */
  lemma PartialCycleKeepsCore(env: Env, config: seq<Vec3>, size1: nat, size12: nat, size123: nat,
                              g: Matrix, name: string, maxdisp: real)
    requires size1 <= size12 && IsMatrix(g, 3 * size123, 3 * (size12 - size1)) && maxdisp > 0.0
    requires ParseMethod(name).Some? && !IsFull(ParseMethod(name).value)
    ensures var r := CycleResult(env, config, size1, size12, size123, g, name, maxdisp);
      var grid := Relaxed(env, config, size123);
      var gf := MatVec(g, Forces2(env, config, size1, size12));
      r.Some? && |r.value| == size123 &&
      (forall k :: 0 <= k < size1 && k < size123 ==> r.value[k] == grid[k]) &&
      (forall k :: size1 <= k < size123 ==> r.value[k] == Add3(grid[k], Vec3(gf[3 * k], gf[3 * k + 1], gf[3 * k + 2])))
  {
  }

  /** Only the region-2 forces enter the update: two LAMMPS answers that
      agree on the relaxed positions of regions 1+2+3, on the forces of atoms
      size_1..size_12-1 and on the square root give the same cycle result,
      whatever the forces on the other atoms. */
  lemma CycleUsesRegion2Forces(e1: Env, e2: Env, config: seq<Vec3>, size1: nat, size12: nat, size123: nat,
                               g: Matrix, name: string, maxdisp: real)
    requires size1 <= size12 && IsMatrix(g, 3 * size123, 3 * (size12 - size1)) && maxdisp > 0.0
    requires e1.sqrt == e2.sqrt
    requires forall k :: 0 <= k < size123 ==> e1.relax(config, k).pos == e2.relax(config, k).pos
    requires forall k :: size1 <= k < size12 ==> e1.relax(config, k).force == e2.relax(config, k).force
    ensures CycleResult(e1, config, size1, size12, size123, g, name, maxdisp)
         == CycleResult(e2, config, size1, size12, size123, g, name, maxdisp)
  {
    assert Relaxed(e1, config, size123) == Relaxed(e2, config, size123);
    var f1 := seq(size12 - size1, i requires 0 <= i < size12 - size1 => e1.relax(config, size1 + i).force);
    var f2 := seq(size12 - size1, i requires 0 <= i < size12 - size1 => e2.relax(config, size1 + i).force);
    assert f1 == f2;
    assert Forces2(e1, config, size1, size12) == Forces2(e2, config, size1, size12);
  }

  /** Only the methods the cycle knows are accepted. */
  lemma CycleRejectsUnknownMethod(env: Env, config: seq<Vec3>, size1: nat, size12: nat, size123: nat,
                                  g: Matrix, name: string, maxdisp: real)
    requires size1 <= size12 && IsMatrix(g, 3 * size123, 3 * (size12 - size1)) && maxdisp > 0.0
    ensures CycleResult(env, config, size1, size12, size123, g, name, maxdisp).None? <==>
      (name !in {"dislLGF123", "perfbulkLGF123", "dislLGF23", "perfbulkLGF23"} ||
       ((name == "dislLGF123" || name == "perfbulkLGF123") && size123 == 0))
  {
  }

  /* ---------- The outer relaxation loop ---------- */

  /** How the outer loop ends: the largest force component fell below ftol,
      the force norm exceeded 100, the iteration budget ran out, or a
      ValueError was raised (argmax of no forces, or a cycle that raised). */
  datatype Outcome = Converged | Diverged | MaxIterations | Failed

  /** The outcome and force_evolution, the logged largest force components. */
  datatype Run = Run(outcome: Outcome, log: seq<real>)

  /** The outer loop's fixed inputs. */
  datatype Context = Context(env: Env, size1: nat, size12: nat, size123: nat, g: Matrix, name: string, ftol: real)

  predicate ValidContext(ctx: Context)
  {
    ctx.size1 <= ctx.size12 <= ctx.size123 && IsMatrix(ctx.g, 3 * ctx.size123, 3 * (ctx.size12 - ctx.size1))
  }

  /** The default maxdisp of relaxation_cycle, the only one the loop uses. */
  const MaxDisp: real := 100.0

  /** The force 2-norm above which the run is declared diverged. */
  const DivergenceNorm: real := 100.0

  /** abs(forces_12.flat[abs(forces_12).argmax()]): the largest absolute force component. */
  function MaxAbsForce(f: seq<real>): (m: real)
    requires |f| > 0
    ensures forall i :: 0 <= i < |f| ==> Abs(f[i]) <= m
    ensures exists i :: 0 <= i < |f| && Abs(f[i]) == m
    decreases |f|
  {
    if |f| == 1 then Abs(f[0])
    else
      var rest := MaxAbsForce(f[..|f| - 1]);
      assert forall i :: 0 <= i < |f| - 1 ==> f[..|f| - 1][i] == f[i];
      if Abs(f[|f| - 1]) > rest then Abs(f[|f| - 1]) else rest
  }

  /** Sum of squares, so that np.linalg.norm(f) is sqrt(SumSq(f)). */
  function SumSq(f: seq<real>): (s: real)
    ensures s >= 0.0
    decreases |f|
  {
    if |f| == 0 then 0.0 else SumSq(f[..|f| - 1]) + f[|f| - 1] * f[|f| - 1]
  }

  /** The flattened forces on regions 1+2 that LAMMPS reports for a data file. */
  function Forces12(ctx: Context, config: seq<Vec3>): (f: seq<real>)
    ensures |f| == 3 * ctx.size12
  {
    Flatten(seq(ctx.size12, k requires 0 <= k < ctx.size12 => ctx.env.forces(config, k)))
  }

  /** One relaxation cycle of the loop, as a function of the data file. */
  function CycleOf(ctx: Context): (cycle: seq<Vec3> -> Option<seq<Vec3>>)
    requires ValidContext(ctx)
  {
    config => CycleResult(ctx.env, config, ctx.size1, ctx.size12, ctx.size123, ctx.g, ctx.name, MaxDisp)
  }

  /** The outer loop's tests and steps, for the specification below: the
      tolerance, np.sqrt, one relaxation cycle and the regions 1+2 forces, as
      functions of the data file. */
  datatype Loop = Loop(ftol: real, sqrt: real -> real,
                       cycle: seq<Vec3> -> Option<seq<Vec3>>, forces: seq<Vec3> -> seq<real>)

  /** The loop that the script runs for a context. */
  function LoopOf(ctx: Context): Loop
    requires ValidContext(ctx)
  {
    Loop(ctx.ftol, ctx.env.sqrt, CycleOf(ctx), config => Forces12(ctx, config))
  }

  /** Specification of the outer loop with `fuel` iterations left, from the
      data file `config` whose regions 1+2 forces are f12, for any cycle. */
  function Iterate(lp: Loop, config: seq<Vec3>, f12: seq<real>, fuel: nat): Run
    decreases fuel
  {
    if fuel == 0 then Run(MaxIterations, [])
    else if |f12| == 0 then Run(Failed, [])
    else
      var fmax := MaxAbsForce(f12);
      if fmax < lp.ftol then Run(Converged, [fmax])
      else if lp.sqrt(SumSq(f12)) > DivergenceNorm then Run(Diverged, [fmax])
      else
        match lp.cycle(config)
        case None => Run(Failed, [fmax])
        case Some(grid) =>
          var rest := Iterate(lp, grid, lp.forces(grid), fuel - 1);
          Run(rest.outcome, [fmax] + rest.log)
  }

  /** A run that `log` precedes. */
  function Extend(log: seq<real>, r: Run): Run
  {
    Run(r.outcome, log + r.log)
  }

  /** One iteration that neither converges, diverges nor fails logs its
      largest force component and continues from the cycle's data file. */
  lemma IterateStep(lp: Loop, config: seq<Vec3>, f12: seq<real>,
                    fuel: nat, grid: seq<Vec3>)
    requires fuel > 0 && |f12| > 0 && MaxAbsForce(f12) >= lp.ftol
    requires lp.sqrt(SumSq(f12)) <= DivergenceNorm && lp.cycle(config) == Some(grid)
    ensures Iterate(lp, config, f12, fuel)
         == Extend([MaxAbsForce(f12)], Iterate(lp, grid, lp.forces(grid), fuel - 1))
  {
  }

  /** Logging x and then a run is logging [x] before that run. */
  lemma ExtendCons(log: seq<real>, x: real, r: Run)
    ensures Extend(log, Extend([x], r)) == Extend(log + [x], r)
  {
    assert log + ([x] + r.log) == (log + [x]) + r.log;
  }

  /** The forces that LAMMPS reports on regions 1+2+3, cut to regions 1+2
      and flattened: forces_12. */
  method ComputeForces12(ctx: Context, config: seq<Vec3>) returns (f12: seq<real>)
    requires ctx.size12 <= ctx.size123
    ensures f12 == Forces12(ctx, config)
  {
    var forces := seq(ctx.size123, k requires 0 <= k < ctx.size123 => ctx.env.forces(config, k));
    f12 := Flatten(forces[..ctx.size12]);
    assert forces[..ctx.size12] == seq(ctx.size12, k requires 0 <= k < ctx.size12 => ctx.env.forces(config, k));
  }

  /** The main loop of the script: forces from the initial data file, then up
      to maxouteriter iterations of log, test, cycle, new forces. */
  method RelaxationLoop(ctx: Context, config0: seq<Vec3>, maxOuterIter: int) returns (outcome: Outcome, log: seq<real>)
    requires ValidContext(ctx)
    ensures Run(outcome, log) ==
      Iterate(LoopOf(ctx), config0, Forces12(ctx, config0), if maxOuterIter < 0 then 0 else maxOuterIter)
  {
    var f12 := ComputeForces12(ctx, config0);
    var config := config0;
    ghost var fuel: nat := if maxOuterIter < 0 then 0 else maxOuterIter;
    ghost var lp := LoopOf(ctx);
    ghost var whole := Iterate(lp, config0, f12, fuel);
    log := [];
    var i := 0;
    while i < maxOuterIter
      invariant fuel == if i < maxOuterIter then maxOuterIter - i else 0
      invariant f12 == lp.forces(config)
      invariant whole == Extend(log, Iterate(lp, config, f12, fuel))
    {
      if |f12| == 0 {
        return Failed, log;
      }
      var norm := ctx.env.sqrt(SumSq(f12));
      var fmax := MaxAbsForce(f12);
      ghost var logBefore, configBefore, f12Before := log, config, f12;
      log := log + [fmax];
      if fmax < ctx.ftol {
        return Converged, log;
      } else if norm > DivergenceNorm {
        return Diverged, log;
      }
      var grid := RelaxationCycle(ctx.env, config, ctx.size1, ctx.size12, ctx.size123, ctx.g, ctx.name, MaxDisp);
      assert grid == lp.cycle(config);
      if grid.None? {
        return Failed, log;
      }
      config := grid.value;
      f12 := ComputeForces12(ctx, config);
      IterateStep(lp, configBefore, f12Before, fuel, config);
      ExtendCons(logBefore, fmax, Iterate(lp, config, f12, fuel - 1));
      fuel := fuel - 1;
      i := i + 1;
    }
    outcome := MaxIterations;
  }

  /** The log never holds more entries than the iteration budget. */
  lemma {:induction false} LogBounded(lp: Loop, config: seq<Vec3>,
                                      f12: seq<real>, fuel: nat)
    ensures |Iterate(lp, config, f12, fuel).log| <= fuel
    ensures Iterate(lp, config, f12, fuel).outcome == MaxIterations ==> |Iterate(lp, config, f12, fuel).log| == fuel
    decreases fuel
  {
    if fuel > 0 && |f12| > 0 {
      var cyc := lp.cycle(config);
      if cyc.Some? {
        LogBounded(lp, cyc.value, lp.forces(cyc.value), fuel - 1);
      }
    }
  }

  /** The shape of a log that stops at the first value below ftol: every
      value but the last is at least ftol, the last is below ftol exactly when
      the run converged, and a run that did not converge never saw a value
      below ftol. */
  predicate FirstExitLog(log: seq<real>, ftol: real, converged: bool)
  {
    (forall k :: 0 <= k < |log| - 1 ==> log[k] >= ftol) &&
    (converged <==> |log| > 0 && log[|log| - 1] < ftol) &&
    (!converged ==> forall k :: 0 <= k < |log| ==> log[k] >= ftol)
  }

  /** Prepending a value at least ftol keeps the first-exit shape. */
  lemma FirstExitCons(x: real, log: seq<real>, ftol: real, converged: bool)
    requires x >= ftol && FirstExitLog(log, ftol, converged)
    ensures FirstExitLog([x] + log, ftol, converged)
  {
    assert forall k :: 1 <= k < |[x] + log| ==> ([x] + log)[k] == log[k - 1];
  }

  /** An iteration that does not go on to the next one ends the run: with
      nothing logged when the budget is spent or there are no forces (and
      then the run has not converged), otherwise with its own largest force
      component logged, converged exactly when that is below ftol. */
  lemma IterateStops(lp: Loop, config: seq<Vec3>,
                     f12: seq<real>, fuel: nat)
    requires !(fuel > 0 && |f12| > 0 && MaxAbsForce(f12) >= lp.ftol &&
               lp.sqrt(SumSq(f12)) <= DivergenceNorm && lp.cycle(config).Some?)
    ensures var r := Iterate(lp, config, f12, fuel);
      (r.log == [] && r.outcome != Converged) ||
      (|f12| > 0 && r.log == [MaxAbsForce(f12)] && (r.outcome == Converged <==> MaxAbsForce(f12) < lp.ftol))
  {
  }

  /** The loop exits at the first iteration whose largest force component is
      below ftol, and only a run that converged logged such a value. */
  lemma {:induction false} FirstExit(lp: Loop, config: seq<Vec3>,
                                     f12: seq<real>, fuel: nat)
    ensures var r := Iterate(lp, config, f12, fuel);
      FirstExitLog(r.log, lp.ftol, r.outcome == Converged)
    decreases fuel
  {
    if fuel > 0 && |f12| > 0 && MaxAbsForce(f12) >= lp.ftol &&
       lp.sqrt(SumSq(f12)) <= DivergenceNorm && lp.cycle(config).Some? {
      var grid := lp.cycle(config).value;
      var rest := Iterate(lp, grid, lp.forces(grid), fuel - 1);
      IterateStep(lp, config, f12, fuel, grid);
      FirstExit(lp, grid, lp.forces(grid), fuel - 1);
      FirstExitCons(MaxAbsForce(f12), rest.log, lp.ftol, rest.outcome == Converged);
    } else {
      IterateStops(lp, config, f12, fuel);
    }
  }

  /** Convergence is tested before divergence: forces below ftol end the run
      as converged whatever their norm. */
  lemma ConvergenceTestedFirst(lp: Loop, config: seq<Vec3>,
                                f12: seq<real>, fuel: nat)
    requires fuel > 0 && |f12| > 0
    requires forall i :: 0 <= i < |f12| ==> Abs(f12[i]) < lp.ftol
    ensures Iterate(lp, config, f12, fuel) == Run(Converged, [MaxAbsForce(f12)])
  {
  }

  /** With an exact square root, the divergence test norm > 100 is the
      squared-norm test SumSq > 10000. */
  lemma DivergenceIsSquaredNorm(sqrt: real -> real, f12: seq<real>)
    requires ExactSqrt(sqrt)
    ensures sqrt(SumSq(f12)) > DivergenceNorm <==> SumSq(f12) > DivergenceNorm * DivergenceNorm
  {
    var s := SumSq(f12);
    SqrtBelow(sqrt, s, DivergenceNorm);
    if s == DivergenceNorm * DivergenceNorm {
      assert sqrt(s) * sqrt(s) == DivergenceNorm * DivergenceNorm;
      if sqrt(s) > DivergenceNorm {
        SquareMono(DivergenceNorm, sqrt(s));
      }
    }
  }

  /** Forces that are not converged but whose squared norm exceeds 10000 stop
      the run at once as diverged, with that iteration logged. */
  lemma DivergenceStops(lp: Loop, config: seq<Vec3>,
                         f12: seq<real>, fuel: nat)
    requires ExactSqrt(lp.sqrt) && fuel > 0 && |f12| > 0
    requires exists i :: 0 <= i < |f12| && Abs(f12[i]) >= lp.ftol
    requires SumSq(f12) > DivergenceNorm * DivergenceNorm
    ensures Iterate(lp, config, f12, fuel) == Run(Diverged, [MaxAbsForce(f12)])
  {
    DivergenceIsSquaredNorm(lp.sqrt, f12);
  }
}
