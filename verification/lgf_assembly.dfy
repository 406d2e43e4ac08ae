/** Assembly of the dislocation lattice Green function (calc_LGF.py).

    A unit force on one degree of freedom of a region-2 atom is balanced by
    displacing the far-field atoms with the continuum large-R Green function,
    the reaction of those displacements is added back as a correction force,
    and the reduced system on the "in" region is solved; the solution
    restricted to regions 1+2+3 is one column of the LGF. Columns are stacked
    atom by atom, direction by direction, and the matrix is saved after every
    atom.

    The elasticity collaborator (G_largeR), np.arctan2, np.sqrt and the
    conjugate-gradient solver are parameters of the model: their values are
    arbitrary functions. A property that needs more of them says so in its
    requires: an exact square root (ExactSqrt), or a solver answer of its
    right-hand side's length (ColumnLength). */
module LGFAssembly {
  import opened Numerics

  /** One atom of the grid file: index, region, oblique (m,n,t) coordinates and basis type. */
  datatype Atom = Atom(index: int, region: int, m: real, n: real, t: real, basis: int)

  /** Cumulative atom counts of regions 1, 1+2, 1+2+3 and 1+2+3+buffer ("in").
      The total, size_all, is the length of the grid. */
  datatype Regions = Regions(size1: nat, size12: nat, size123: nat, sizeIn: nat)

  predicate ValidRegions(reg: Regions, sizeAll: nat)
  {
    reg.size1 <= reg.size12 <= reg.size123 <= reg.sizeIn <= sizeAll
  }

  /** np.pi as the 16-digit decimal it prints; no proof depends on its value. */
  const Pi: real := 3.141592653589793
  const TwoPi: real := 2.0 * Pi

  /** Angles this close to zero are snapped to exactly zero. */
  const AngleTol: real := 1.0e-8

  /** Python's float modulo x % (2*pi): the remainder takes the sign of the
      divisor, so it lies in [0, 2*pi); an x already there is kept and an x
      in [-2*pi, 0) moves up by one period. */
  function ModTwoPi(x: real): (r: real)
    ensures 0.0 <= r < TwoPi
    ensures 0.0 <= x < TwoPi ==> r == x
    ensures -TwoPi <= x < 0.0 ==> r == x + TwoPi
  {
    var q := (x / TwoPi).Floor;
    assert q as real <= x / TwoPi < q as real + 1.0;
    assert 0.0 <= x < TwoPi ==> q == 0;
    assert -TwoPi <= x < 0.0 ==> q == -1;
    x - TwoPi * q as real
  }

  /** The remainder differs from x by a whole number of periods. */
  lemma ModTwoPiPeriods(x: real)
    ensures ((x - ModTwoPi(x)) / TwoPi).Floor as real == (x - ModTwoPi(x)) / TwoPi
  {
    var q := (x / TwoPi).Floor;
    assert x - ModTwoPi(x) == TwoPi * q as real;
    assert (x - ModTwoPi(x)) / TwoPi == q as real;
  }

  /** The polar angle as setBC normalises it: snapped to exactly 0 when its
      magnitude is at most 1e-8, otherwise reduced modulo 2*pi. Either way it
      lies in [0, 2*pi); an angle in (-2*pi, -1e-8) moves up by one period and
      an angle already in (1e-8, 2*pi) is kept. */
  function NormalizeAngle(phi: real): (r: real)
    ensures 0.0 <= r < TwoPi
    ensures Abs(phi) <= AngleTol ==> r == 0.0
    ensures AngleTol < phi < TwoPi ==> r == phi
    ensures -TwoPi <= phi < -AngleTol ==> r == phi + TwoPi
  {
    if Abs(phi) > AngleTol then ModTwoPi(phi) else 0.0
  }

  /** The far-field collaborators: lattice constant a0, np.sqrt, np.arctan2
      and elastic.G_largeR with its Fourier tables, N, a0, V and t_mag fixed,
      so that it is a function of (R, phi) only. */
  datatype FarFieldModel = FarFieldModel(
    a0: real,
    sqrt: real -> real,
    atan2: (real, real) -> real,
    gLargeR: (real, real) -> Mat3)

  function Sq(x: real): real { x * x }

  /** In-plane distance R = a0*|(dm, dn)| from the far-field atom to the source atom. */
  function Radius(ff: FarFieldModel, src: Atom, dst: Atom): real
  {
    ff.a0 * ff.sqrt(Sq(src.m - dst.m) + Sq(src.n - dst.n))
  }

  /** Normalised angle of the separation (source minus far-field atom) to the +m axis. */
  function Angle(ff: FarFieldModel, src: Atom, dst: Atom): real
  {
    NormalizeAngle(ff.atan2(src.n - dst.n, src.m - dst.m))
  }

  /** Continuum displacement u = -G(R, phi).f of far-field atom dst due to force f on src. */
  function FarFieldDisplacement(ff: FarFieldModel, src: Atom, dst: Atom, f: Vec3): Vec3
  {
    Neg3(Apply3(ff.gLargeR(Radius(ff, src, dst), Angle(ff, src, dst)), f))
  }

  /** The boundary field setBC returns: zero below size_in, the continuum
      response from size_in to size_all. */
  function BoundaryField(ff: FarFieldModel, grid: seq<Atom>, i: nat, sizeIn: nat, f: seq<Vec3>): seq<Vec3>
    requires i < |grid| && i < |f|
  {
    seq(|grid|, k requires 0 <= k < |grid| =>
      if k < sizeIn then Zero3 else FarFieldDisplacement(ff, grid[i], grid[k], f[i]))
  }

  /** One far-field row of setBC: R and phi from the separation, phi
      normalised, then G_largeR(R, phi).f. */
  method Response(ff: FarFieldModel, src: Atom, dst: Atom, f: Vec3) returns (gf: Vec3)
    ensures Neg3(gf) == FarFieldDisplacement(ff, src, dst, f)
  {
    var dm, dn := src.m - dst.m, src.n - dst.n;
    var r := ff.a0 * ff.sqrt(Sq(dm) + Sq(dn));
    var phi := ff.atan2(dn, dm);
    if Abs(phi) > AngleTol {
      phi := ModTwoPi(phi);
    } else {
      phi := 0.0;
    }
    assert r == Radius(ff, src, dst);
    assert phi == Angle(ff, src, dst);
    gf := Apply3(ff.gLargeR(r, phi), f);
  }

  /** u[j] -= G_largeR(R, phi).f for one far-field row j, starting from zero. */
  method SubtractResponse(a: array<Vec3>, j: nat, ff: FarFieldModel, src: Atom, dst: Atom, f: Vec3)
    requires j < a.Length && a[j] == Zero3
    modifies a
    ensures a[j] == FarFieldDisplacement(ff, src, dst, f)
    ensures forall q :: 0 <= q < a.Length && q != j ==> a[q] == old(a[q])
  {
    var gf := Response(ff, src, dst, f);
    a[j] := Sub3(a[j], gf);
  }

  /** setBC: zero the (size_all, 3) displacement array, then subtract
      G_largeR(R, phi).f[i] from each far-field row in place. */
  method SetBC(i: nat, grid: seq<Atom>, sizeIn: nat, ff: FarFieldModel, f: seq<Vec3>)
    returns (u: seq<Vec3>)
    requires sizeIn <= |grid| && |f| == sizeIn && i < sizeIn
    ensures |u| == |grid|
    ensures forall k :: 0 <= k < sizeIn ==> u[k] == Zero3
    ensures u == BoundaryField(ff, grid, i, sizeIn, f)
  {
    var a := new Vec3[|grid|](_ => Zero3);
    ghost var field := BoundaryField(ff, grid, i, sizeIn, f);
    var k := sizeIn;
    while k < |grid|
      invariant sizeIn <= k <= |grid|
      invariant forall q :: 0 <= q < k ==> a[q] == field[q]
      invariant forall q :: k <= q < |grid| ==> a[q] == Zero3
    {
      SubtractResponse(a, k, ff, grid[i], grid[k], f[i]);
      k := k + 1;
    }
    u := a[..];
    assert forall q :: 0 <= q < |u| ==> u[q] == field[q];
  }

  /** With an exact square root and a0 >= 0, R is a non-negative distance
      whose square is a0^2 (dm^2 + dn^2). */
  lemma RadiusIsDistance(ff: FarFieldModel, src: Atom, dst: Atom)
    requires ExactSqrt(ff.sqrt) && ff.a0 >= 0.0
    ensures Radius(ff, src, dst) >= 0.0
    ensures Sq(Radius(ff, src, dst)) == Sq(ff.a0) * (Sq(src.m - dst.m) + Sq(src.n - dst.n))
  {
    var x := Sq(src.m - dst.m) + Sq(src.n - dst.n);
    var s := ff.sqrt(x);
    assert 0.0 <= s && s * s == x;
    MulMono(ff.a0, 0.0, s);
    var a0 := ff.a0;
    assert (a0 * s) * (a0 * s) == (a0 * a0) * (s * s);
  }

  /** Shift every atom of the grid by the same (dm, dn, dt). */
  function Translate(grid: seq<Atom>, dm: real, dn: real, dt: real): (g: seq<Atom>)
    ensures |g| == |grid|
  {
    seq(|grid|, k requires 0 <= k < |grid| =>
      grid[k].(m := grid[k].m + dm, n := grid[k].n + dn, t := grid[k].t + dt))
  }

  /** The boundary field depends only on the in-plane separations from the
      source atom: two grids whose (dm, dn) to atom i agree row by row give the
      same field, whatever their t coordinates and absolute positions. */
  lemma BoundaryFieldInPlane(ff: FarFieldModel, g1: seq<Atom>, g2: seq<Atom>, i: nat, sizeIn: nat, f: seq<Vec3>)
    requires |g1| == |g2| && i < |g1| && i < |f|
    requires forall k :: 0 <= k < |g1| ==>
      g1[i].m - g1[k].m == g2[i].m - g2[k].m && g1[i].n - g1[k].n == g2[i].n - g2[k].n
    ensures BoundaryField(ff, g1, i, sizeIn, f) == BoundaryField(ff, g2, i, sizeIn, f)
  {
    var lhs, rhs := BoundaryField(ff, g1, i, sizeIn, f), BoundaryField(ff, g2, i, sizeIn, f);
    forall k | 0 <= k < |g1|
      ensures lhs[k] == rhs[k]
    {
      if sizeIn <= k {
        assert Radius(ff, g1[i], g1[k]) == Radius(ff, g2[i], g2[k]);
        assert Angle(ff, g1[i], g1[k]) == Angle(ff, g2[i], g2[k]);
      }
    }
  }

  /** The t coordinate is ignored: grids that agree on m and n give the same
      boundary field. */
  lemma BoundaryFieldIgnoresT(ff: FarFieldModel, g1: seq<Atom>, g2: seq<Atom>, i: nat, sizeIn: nat, f: seq<Vec3>)
    requires |g1| == |g2| && i < |g1| && i < |f|
    requires forall k :: 0 <= k < |g1| ==> g1[k].m == g2[k].m && g1[k].n == g2[k].n
    ensures BoundaryField(ff, g1, i, sizeIn, f) == BoundaryField(ff, g2, i, sizeIn, f)
  {
    BoundaryFieldInPlane(ff, g1, g2, i, sizeIn, f);
  }

  /** Translating the whole grid by the same (dm, dn, dt) leaves the boundary
      field unchanged. */
  lemma BoundaryFieldTranslationInvariant(ff: FarFieldModel, grid: seq<Atom>, i: nat, sizeIn: nat,
                                          f: seq<Vec3>, dm: real, dn: real, dt: real)
    requires i < |grid| && i < |f|
    ensures BoundaryField(ff, Translate(grid, dm, dn, dt), i, sizeIn, f) == BoundaryField(ff, grid, i, sizeIn, f)
  {
    BoundaryFieldInPlane(ff, Translate(grid, dm, dn, dt), grid, i, sizeIn, f);
  }

  /** The conjugate-gradient collaborator's answer: the solution and the
      convergence flag (0 for success). */
  datatype SolveOutcome = SolveOutcome(x: seq<real>, info: int)

  /** Everything the assembly reads: the grid and its regions, the
      force-constant matrix D, the far-field collaborators and sla.cg with
      tol=1e-8 fixed. D has 3*size_in rows and 3*size_all columns: D.dot of a
      3*size_all displacement is added in place to a 3*size_in force. */
  datatype Setup = Setup(
    grid: seq<Atom>,
    reg: Regions,
    fc: Matrix,
    ff: FarFieldModel,
    cg: (Matrix, seq<real>) -> SolveOutcome)

  predicate ValidSetup(s: Setup)
  {
    ValidRegions(s.reg, |s.grid|) && IsMatrix(s.fc, 3 * s.reg.sizeIn, 3 * |s.grid|)
  }

  /** D[0:n, 0:n]. */
  function LeadingBlock(d: Matrix, n: nat): (b: Matrix)
    requires |d| >= n && forall r :: 0 <= r < |d| ==> |d[r]| >= n
    ensures IsMatrix(b, n, n)
  {
    seq(n, r requires 0 <= r < n => d[r][..n])
  }

  /** The force vector of length n holding a single 1 at index k. */
  function UnitForce(n: nat, k: nat): seq<real>
  {
    seq(n, q requires 0 <= q < n => if q == k then 1.0 else 0.0)
  }

  /** f(II) + D.u_bc for the unit force on degree of freedom 3j+d. */
  function CorrectedForce(s: Setup, j: nat, d: nat): (f: seq<real>)
    requires ValidSetup(s) && j < s.reg.sizeIn && d < 3
    ensures |f| == 3 * s.reg.sizeIn
  {
    var f := UnitForce(3 * s.reg.sizeIn, 3 * j + d);
    var ubc := BoundaryField(s.ff, s.grid, j, s.reg.sizeIn, Reshape3(f));
    AddVec(f, MatVec(s.fc, Flatten(ubc)))
  }

  /** The LGF column for (j, d): the first 3*size_123 entries of the solution
      of the "in" block system, whatever the solver's convergence flag. */
  function Column(s: Setup, j: nat, d: nat): seq<real>
    requires ValidSetup(s) && j < s.reg.sizeIn && d < 3
  {
    var n := 3 * s.reg.sizeIn;
    Prefix(s.cg(LeadingBlock(s.fc, n), CorrectedForce(s, j, d)).x, 3 * s.reg.size123)
  }

  /** Column where it is defined, and no column elsewhere. */
  function ColumnAt(s: Setup, j: nat, d: nat): seq<real>
  {
    if ValidSetup(s) && j < s.reg.sizeIn && d < 3 then Column(s, j, d) else []
  }

  /** The column function of a setup. */
  function ColumnOf(s: Setup): (nat, nat) -> seq<real>
  {
    (j: nat, d: nat) => ColumnAt(s, j, d)
  }

  /** The columns for atoms lo..hi-1 stacked side by side: atom index
      ascending, then direction 0, 1, 2. */
  function Stack(col: (nat, nat) -> seq<real>, lo: nat, hi: nat): seq<seq<real>>
    requires lo <= hi
    decreases hi - lo
  {
    if hi == lo then [] else Stack(col, lo, hi - 1) + Directions(col, hi - 1, 3)
  }

  /** Completing atom hi appends its three columns. */
  lemma StackStep(col: (nat, nat) -> seq<real>, lo: nat, hi: nat)
    requires lo <= hi
    ensures Stack(col, lo, hi + 1) == Stack(col, lo, hi) + Directions(col, hi, 3)
  {
  }

  /** The columns of atom j for directions 0..d-1. */
  function Directions(col: (nat, nat) -> seq<real>, j: nat, d: nat): (r: seq<seq<real>>)
    ensures |r| == d
  {
    if d == 0 then [] else Directions(col, j, d - 1) + [col(j, d - 1)]
  }

  lemma DirectionsAt(col: (nat, nat) -> seq<real>, j: nat, d: nat, e: nat)
    requires e < d
    ensures Directions(col, j, d)[e] == col(j, e)
    decreases d
  {
    if e < d - 1 {
      DirectionsAt(col, j, d - 1, e);
    }
  }

  lemma {:induction false} StackLength(col: (nat, nat) -> seq<real>, lo: nat, hi: nat)
    requires lo <= hi
    ensures |Stack(col, lo, hi)| == 3 * (hi - lo)
    decreases hi - lo
  {
    if hi > lo { StackLength(col, lo, hi - 1); }
  }

  /** Column 3(j-lo)+d of the stacked matrix is the column of (j, d). */
  lemma {:induction false} StackAt(col: (nat, nat) -> seq<real>, lo: nat, hi: nat, j: nat, d: nat)
    requires lo <= j < hi && d < 3
    ensures |Stack(col, lo, hi)| == 3 * (hi - lo)
    ensures Stack(col, lo, hi)[3 * (j - lo) + d] == col(j, d)
    decreases hi - lo
  {
    StackLength(col, lo, hi);
    StackLength(col, lo, hi - 1);
    if j < hi - 1 {
      StackAt(col, lo, hi - 1, j, d);
    } else {
      DirectionsAt(col, j, 3, d);
    }
  }

  /** Computing atoms lo..hi-1 in one batch gives the columns of two
      consecutive batches lo..mid-1 and mid..hi-1, in the same order; in
      particular what is saved after atom mid-1 is a prefix of the result. */
  lemma {:induction false} StackSplit(col: (nat, nat) -> seq<real>, lo: nat, mid: nat, hi: nat)
    requires lo <= mid <= hi
    ensures Stack(col, lo, hi) == Stack(col, lo, mid) + Stack(col, mid, hi)
    decreases hi - mid
  {
    if hi > mid {
      StackSplit(col, lo, mid, hi - 1);
    }
  }

  /** What the per-atom np.save writes over a run that completes atoms
      lo..hi-1: after atom j, the columns of atoms lo..j. */
  function Checkpoints(col: (nat, nat) -> seq<real>, lo: nat, hi: nat): (r: seq<seq<seq<real>>>)
    requires lo <= hi
    ensures |r| == hi - lo
    decreases hi - lo
  {
    if hi == lo then [] else Checkpoints(col, lo, hi - 1) + [Stack(col, lo, hi)]
  }

  /** Completing atom hi saves the matrix with its columns. */
  lemma CheckpointsStep(col: (nat, nat) -> seq<real>, lo: nat, hi: nat)
    requires lo <= hi
    ensures Checkpoints(col, lo, hi + 1) == Checkpoints(col, lo, hi) + [Stack(col, lo, hi + 1)]
  {
  }

  /** One iteration of the assembly loop: appending atom j's columns and
      saving the result extends both the matrix and the list of saves. */
  lemma AssembleStep(col: (nat, nat) -> seq<real>, lo: nat, j: nat,
                     g: seq<seq<real>>, saved: seq<seq<seq<real>>>, cs: seq<seq<real>>)
    requires lo <= j && g == Stack(col, lo, j) && saved == Checkpoints(col, lo, j)
    requires cs == Directions(col, j, 3)
    ensures g + cs == Stack(col, lo, j + 1)
    ensures saved + [g + cs] == Checkpoints(col, lo, j + 1)
  {
    StackStep(col, lo, j);
    CheckpointsStep(col, lo, j);
  }

  /** Checkpoint k holds the first 3(k+1) columns of the final matrix: every
      save is a prefix of every later one, and columns once saved never
      change. */
  lemma {:induction false} CheckpointsArePrefixes(col: (nat, nat) -> seq<real>, lo: nat, hi: nat, k: nat)
    requires lo <= hi && k < hi - lo
    ensures |Stack(col, lo, hi)| == 3 * (hi - lo)
    ensures Checkpoints(col, lo, hi)[k] == Stack(col, lo, hi)[..3 * (k + 1)]
    decreases hi - lo
  {
    StackLength(col, lo, hi);
    StackLength(col, lo, lo + k + 1);
    StackSplit(col, lo, lo + k + 1, hi);
    if k < hi - lo - 1 {
      CheckpointsArePrefixes(col, lo, hi - 1, k);
      StackSplit(col, lo, lo + k + 1, hi - 1);
    }
  }

  /** When the solver returns a vector of its right-hand side's length, as
      sla.cg does, every column has 3*size_123 entries. */
  lemma ColumnLength(s: Setup, j: nat, d: nat)
    requires ValidSetup(s) && j < s.reg.sizeIn && d < 3
    requires |s.cg(LeadingBlock(s.fc, 3 * s.reg.sizeIn), CorrectedForce(s, j, d)).x| == 3 * s.reg.sizeIn
    ensures |Column(s, j, d)| == 3 * s.reg.size123
  {
  }

  /** Reshaped to (size_in, 3), the unit force on 3j+d has the unit vector
      along d in row j and zero rows elsewhere. */
  lemma UnitForceRows(n: nat, j: nat, d: nat, f: seq<real>)
    requires j < n && d < 3 && f == UnitForce(3 * n, 3 * j + d)
    ensures |Reshape3(f)| == n
    ensures Reshape3(f)[j] == Basis(d)
    ensures forall k :: 0 <= k < n && k != j ==> Reshape3(f)[k] == Zero3
  {
    var rows := Reshape3(f);
    forall k | 0 <= k < n && k != j
      ensures rows[k] == Zero3
    {
      assert 3 * k != 3 * j + d && 3 * k + 1 != 3 * j + d && 3 * k + 2 != 3 * j + d;
    }
  }

  /** For the unit force on (j, d) the far-field boundary row of atom k is
      minus column d of G_largeR at that atom's (R, phi). */
  lemma UnitForceBoundary(s: Setup, j: nat, d: nat, k: nat)
    requires ValidSetup(s) && j < s.reg.sizeIn && d < 3 && s.reg.sizeIn <= k < |s.grid|
    ensures BoundaryField(s.ff, s.grid, j, s.reg.sizeIn, Reshape3(UnitForce(3 * s.reg.sizeIn, 3 * j + d)))[k]
         == Neg3(Col3(s.ff.gLargeR(Radius(s.ff, s.grid[j], s.grid[k]), Angle(s.ff, s.grid[j], s.grid[k])), d))
  {
    UnitForceRows(s.reg.sizeIn, j, d, UnitForce(3 * s.reg.sizeIn, 3 * j + d));
    ApplyBasis(s.ff.gLargeR(Radius(s.ff, s.grid[j], s.grid[k]), Angle(s.ff, s.grid[j], s.grid[k])), d);
  }

  /** The atom range of the assembly loop: LGF_jmin defaults to size_1 and
      LGF_jmax to size_12 - 1, each independently, when given negative. */
  function AtomRange(reg: Regions, jmin: int, jmax: int): (r: (nat, int))
    ensures jmin < 0 ==> r.0 == reg.size1
    ensures jmin >= 0 ==> r.0 == jmin
    ensures jmax < 0 ==> r.1 == reg.size12 - 1
    ensures jmax >= 0 ==> r.1 == jmax
  {
    (if jmin < 0 then reg.size1 else jmin, if jmax < 0 then reg.size12 - 1 else jmax)
  }

  /** With both bounds defaulted the loop covers exactly region 2, and the
      assembled matrix has 3*size_2 columns, one per degree of freedom. */
  lemma DefaultRangeIsRegion2(s: Setup)
    requires ValidSetup(s)
    ensures var r := AtomRange(s.reg, -1, -1);
      r.0 == s.reg.size1 && r.1 + 1 == s.reg.size12 &&
      |Stack(ColumnOf(s), r.0, r.1 + 1)| == 3 * (s.reg.size12 - s.reg.size1)
  {
    StackLength(ColumnOf(s), s.reg.size1, s.reg.size12);
  }

  /** The first atom the loop does not complete: hi + 1 when the whole range
      lies inside the "in" region, otherwise the first atom outside it, where
      f[3j] = 1 raises IndexError. */
  function StopAtom(lo: nat, hi: int, sizeIn: nat): (stop: nat)
    ensures lo <= stop
    ensures hi < lo ==> stop == lo
    ensures lo <= hi < sizeIn ==> stop == hi + 1
    ensures lo <= hi && sizeIn <= hi ==> stop == if lo < sizeIn then sizeIn else lo
  {
    if hi < lo then lo else if hi < sizeIn then hi + 1 else if lo < sizeIn then sizeIn else lo
  }

  /** f = zeros(3n); f[3j+d] = 1. */
  method UnitForceArray(n: nat, k: nat) returns (f: array<real>)
    requires k < n
    ensures fresh(f) && f[..] == UnitForce(n, k)
  {
    f := new real[n](_ => 0.0);
    f[k] := 1.0;
  }

  /** f += corr, element by element in place. */
  method AddInPlace(f: array<real>, corr: seq<real>)
    requires |corr| == f.Length
    modifies f
    ensures f[..] == AddVec(old(f[..]), corr)
  {
    forall q | 0 <= q < f.Length {
      f[q] := f[q] + corr[q];
    }
  }

  /** The unit force on degree of freedom 3j+d, corrected in place by D
      applied to the boundary displacements that setBC returns for it. */
  method CorrectForce(s: Setup, j: nat, d: nat) returns (f: seq<real>)
    requires ValidSetup(s) && j < s.reg.sizeIn && d < 3
    ensures f == CorrectedForce(s, j, d)
  {
    var n := s.reg.sizeIn;
    var a := UnitForceArray(3 * n, 3 * j + d);
    ghost var unit := a[..];
    var ubc := SetBC(j, s.grid, n, s.ff, Reshape3(a[..]));
    var corr := MatVec(s.fc, Flatten(ubc));
    AddInPlace(a, corr);
    f := a[..];
    assert f == AddVec(unit, corr);
  }

  /** One pass of the inner loop body: unit force on 3j+d, boundary field,
      correction D.u_bc added in place, solve on the "in" block, and the first
      3*size_123 entries of the solution. */
  method SolveColumn(s: Setup, j: nat, d: nat) returns (c: seq<real>)
    requires ValidSetup(s) && j < s.reg.sizeIn && d < 3
    ensures c == Column(s, j, d)
  {
    var f := CorrectForce(s, j, d);
    var sol := s.cg(LeadingBlock(s.fc, 3 * s.reg.sizeIn), f);
    c := Prefix(sol.x, 3 * s.reg.size123);
  }


  /** The inner loop over the three directions of atom j. */
  method SolveAtom(s: Setup, j: nat) returns (cs: seq<seq<real>>)
    requires ValidSetup(s) && j < s.reg.sizeIn
    ensures cs == Directions(ColumnOf(s), j, 3)
  {
    cs := [];
    var d := 0;
    while d < 3
      invariant 0 <= d <= 3
      invariant cs == Directions(ColumnOf(s), j, d)
    {
      var c := SolveColumn(s, j, d);
      cs := cs + [c];
      d := d + 1;
    }
  }

  /** One pass of the outer loop body for an atom inside the "in" region:
      its three columns are stacked onto G and the result is saved. */
  method AssembleAtom(s: Setup, lo: nat, j: nat, g: seq<seq<real>>, saved: seq<seq<seq<real>>>)
    returns (g': seq<seq<real>>, saved': seq<seq<seq<real>>>)
    requires ValidSetup(s) && lo <= j < s.reg.sizeIn
    requires g == Stack(ColumnOf(s), lo, j) && saved == Checkpoints(ColumnOf(s), lo, j)
    ensures g' == Stack(ColumnOf(s), lo, j + 1)
    ensures saved' == Checkpoints(ColumnOf(s), lo, j + 1)
  {
    var cs := SolveAtom(s, j);
    AssembleStep(ColumnOf(s), lo, j, g, saved, cs);
    g' := g + cs;
    saved' := saved + [g'];
  }

  /** The assembly loop over atoms lo..hi. G is kept as its list of columns,
      `saved` lists the matrix each np.save writes, one per completed atom,
      and `ok` is false when the loop stops on an atom outside the "in"
      region. The columns it holds are described by StackAt, StackLength and
      CheckpointsArePrefixes. */
  method AssembleRange(s: Setup, lo: nat, hi: int)
    returns (ok: bool, g: seq<seq<real>>, saved: seq<seq<seq<real>>>)
    requires ValidSetup(s)
    ensures ok == (hi < lo || hi < s.reg.sizeIn)
    ensures g == Stack(ColumnOf(s), lo, StopAtom(lo, hi, s.reg.sizeIn))
    ensures saved == Checkpoints(ColumnOf(s), lo, StopAtom(lo, hi, s.reg.sizeIn))
  {
    var n := s.reg.sizeIn;
    g, saved := [], [];
    var j := lo;
    // f[3j+d] = 1 raises IndexError at the first atom j >= size_in.
    while j <= hi && j < n
      invariant lo <= j && (j == lo || (j <= hi + 1 && j <= n))
      invariant g == Stack(ColumnOf(s), lo, j)
      invariant saved == Checkpoints(ColumnOf(s), lo, j)
    {
      g, saved := AssembleAtom(s, lo, j, g, saved);
      j := j + 1;
    }
    ok := j > hi;
    assert j == StopAtom(lo, hi, n);
  }

  /** The __main__ assembly: the default atom range, then the loop over it. */
  method AssembleLGF(s: Setup, lgfJmin: int, lgfJmax: int)
    returns (ok: bool, g: seq<seq<real>>, saved: seq<seq<seq<real>>>)
    requires ValidSetup(s)
    ensures ok == (AtomRange(s.reg, lgfJmin, lgfJmax).1 < AtomRange(s.reg, lgfJmin, lgfJmax).0
                   || AtomRange(s.reg, lgfJmin, lgfJmax).1 < s.reg.sizeIn)
    ensures g == Stack(ColumnOf(s), AtomRange(s.reg, lgfJmin, lgfJmax).0,
                       StopAtom(AtomRange(s.reg, lgfJmin, lgfJmax).0, AtomRange(s.reg, lgfJmin, lgfJmax).1, s.reg.sizeIn))
    ensures saved == Checkpoints(ColumnOf(s), AtomRange(s.reg, lgfJmin, lgfJmax).0,
                       StopAtom(AtomRange(s.reg, lgfJmin, lgfJmax).0, AtomRange(s.reg, lgfJmin, lgfJmax).1, s.reg.sizeIn))
  {
    var range := AtomRange(s.reg, lgfJmin, lgfJmax);
    ok, g, saved := AssembleRange(s, range.0, range.1);
  }
}
