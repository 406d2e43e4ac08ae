/** Loading the LGF for the relaxation (relaxation_wlammps.py, script body):
    the region sizes stored with the LGF must match the grid's, the update
    method must be one of the four known ones, a dislocation LGF must have
    shape (3*size_123, 3*size_2), and every 3x3 block is rotated from the
    cubic (xyz) frame to the dislocation (mnt) frame as M^T.G.M. The
    perfect-bulk methods read each block through an index mapping between the
    dislocation and the perfect-bulk geometries. */
module LGFSetup {
  import opened Numerics
  import opened UpdateMethods

  /** The size_1, size_12 and size_123 attributes stored in the LGF file. */
  datatype StoredSizes = StoredSizes(size1: int, size12: int, size123: int)

  /** The ValueErrors of the LGF set-up, in the order they are checked. */
  datatype SetupError = Size1Mismatch | Size12Mismatch | Size123Mismatch | WrongShape | InvalidMethod

  /** The three consistency checks, in order; the first mismatch is reported. */
  function CheckSizes(stored: StoredSizes, size1: nat, size12: nat, size123: nat): (r: Option<SetupError>)
    ensures r.None? <==> stored.size1 == size1 && stored.size12 == size12 && stored.size123 == size123
    ensures r == Some(Size1Mismatch) <==> stored.size1 != size1
    ensures r == Some(Size12Mismatch) <==> stored.size1 == size1 && stored.size12 != size12
    ensures r == Some(Size123Mismatch) <==> stored.size1 == size1 && stored.size12 == size12 && stored.size123 != size123
  {
    if stored.size1 != size1 then Some(Size1Mismatch)
    else if stored.size12 != size12 then Some(Size12Mismatch)
    else if stored.size123 != size123 then Some(Size123Mismatch)
    else None
  }

  /** M^T.B.M with M = rot: a 3x3 block rotated from the xyz frame into the
      mnt frame whose basis vectors are the columns of M. */
  function Rotate(rot: Mat3, b: Mat3): Mat3
  {
    Mul3(Transpose3(rot), Mul3(b, rot))
  }

  const Zero33: Mat3 := Mat3(Zero3, Zero3, Zero3)

  /** The 3x3 block G[3i:3i+3, 3j:3j+3] of a dense matrix with gCols columns. */
  function Block(g: Matrix, gCols: nat, i: nat, j: nat): (b: Mat3)
    requires IsMatrix(g, |g|, gCols) && 3 * i + 3 <= |g| && 3 * j + 3 <= gCols
    ensures forall a, c :: 0 <= a < 3 && 0 <= c < 3 ==> Entry(b, a, c) == g[3 * i + a][3 * j + c]
  {
    Mat3(Vec3(g[3 * i][3 * j], g[3 * i][3 * j + 1], g[3 * i][3 * j + 2]),
         Vec3(g[3 * i + 1][3 * j], g[3 * i + 1][3 * j + 1], g[3 * i + 1][3 * j + 2]),
         Vec3(g[3 * i + 2][3 * j], g[3 * i + 2][3 * j + 1], g[3 * i + 2][3 * j + 2]))
  }

  /** The mapping file: mapping[i][k] is the perfect-bulk pair (i_b, j_b)
      standing for the dislocation pair (i, k). */
  type Mapping = seq<seq<(int, int)>>

  /** Which block of the stored LGF feeds block (i, j) of the rotated one:
      itself for the dislocation LGF; (i_b, j_b - size_1) with (i_b, j_b) =
      mapping[i][j + size_1] for the perfect-bulk LGF. A pair the mapping does
      not cover is reported as (-1, -1). */
  function SourceBlock(m: UpdateMethod, mapping: Mapping, size1: nat, i: nat, j: nat): (src: (int, int))
    ensures IsDisl(m) ==> src == (i, j)
  {
    if IsDisl(m) then (i, j)
    else if i < |mapping| && j + size1 < |mapping[i]| then
      (mapping[i][j + size1].0, mapping[i][j + size1].1 - size1)
    else (-1, -1)
  }

  /** A block index pair that lies inside a (rows, gCols) matrix. */
  predicate InRange(g: Matrix, gCols: nat, src: (int, int))
  {
    0 <= src.0 && 3 * src.0 + 3 <= |g| && 0 <= src.1 && 3 * src.1 + 3 <= gCols
  }

  /** Every block the rotation loops read lies inside G. */
  predicate SourcesInRange(g: Matrix, gCols: nat, m: UpdateMethod, mapping: Mapping, size1: nat, size2: nat, size123: nat)
  {
    forall i: nat, j: nat :: i < size123 && j < size2 ==> InRange(g, gCols, SourceBlock(m, mapping, size1, i, j))
  }

  /** The rotated LGF as a size_123 x size_2 grid of 3x3 blocks. */
  function RotatedBlocks(g: Matrix, gCols: nat, rot: Mat3, m: UpdateMethod, mapping: Mapping,
                         size1: nat, size2: nat, size123: nat): (bs: seq<seq<Mat3>>)
    requires IsMatrix(g, |g|, gCols) && SourcesInRange(g, gCols, m, mapping, size1, size2, size123)
    ensures |bs| == size123 && forall i :: 0 <= i < size123 ==> |bs[i]| == size2
  {
    seq(size123, i requires 0 <= i < size123 =>
      seq(size2, j requires 0 <= j < size2 =>
        Rotate(rot, Block(g, gCols, SourceBlock(m, mapping, size1, i, j).0, SourceBlock(m, mapping, size1, i, j).1))))
  }

  /** A grid of 3x3 blocks laid out as a dense (3*rows, 3*cols) matrix. */
  function Dense(bs: seq<seq<Mat3>>, cols: nat): (d: Matrix)
    requires forall i :: 0 <= i < |bs| ==> |bs[i]| == cols
    ensures IsMatrix(d, 3 * |bs|, 3 * cols)
  {
    seq(3 * |bs|, r requires 0 <= r < 3 * |bs| =>
      seq(3 * cols, c requires 0 <= c < 3 * cols => Entry(bs[r / 3][c / 3], r % 3, c % 3)))
  }

  /** Entry (3i+a, 3j+b) of the dense layout is entry (a, b) of block (i, j):
      G_mnt[i*3:(i+1)*3, j*3:(j+1)*3] is that block. */
  lemma DenseEntry(bs: seq<seq<Mat3>>, cols: nat, i: nat, j: nat, a: nat, b: nat)
    requires forall k :: 0 <= k < |bs| ==> |bs[k]| == cols
    requires i < |bs| && j < cols && a < 3 && b < 3
    ensures 3 * i + a < 3 * |bs| && 3 * j + b < 3 * cols
    ensures Dense(bs, cols)[3 * i + a][3 * j + b] == Entry(bs[i][j], a, b)
  {
    assert (3 * i + a) / 3 == i && (3 * i + a) % 3 == a;
    assert (3 * j + b) / 3 == j && (3 * j + b) % 3 == b;
  }

  /** The nested rotation loops: G_mnt starts at zero and block (i, j) is
      overwritten with the rotated source block, row of blocks by row. */
  method RotateLGF(g: Matrix, gCols: nat, rot: Mat3, m: UpdateMethod, mapping: Mapping,
                   size1: nat, size2: nat, size123: nat) returns (gm: Matrix)
    requires IsMatrix(g, |g|, gCols) && SourcesInRange(g, gCols, m, mapping, size1, size2, size123)
    ensures gm == Dense(RotatedBlocks(g, gCols, rot, m, mapping, size1, size2, size123), size2)
    ensures IsMatrix(gm, 3 * size123, 3 * size2)
  {
    ghost var want := RotatedBlocks(g, gCols, rot, m, mapping, size1, size2, size123);
    var a := new Mat3[size123, size2]((_, _) => Zero33);
    for i := 0 to size123
      invariant forall p, q :: 0 <= p < i && 0 <= q < size2 ==> a[p, q] == want[p][q]
    {
      for j := 0 to size2
        invariant forall p, q :: 0 <= p < i && 0 <= q < size2 ==> a[p, q] == want[p][q]
        invariant forall q :: 0 <= q < j ==> a[i, q] == want[i][q]
      {
        var src := SourceBlock(m, mapping, size1, i, j);
        a[i, j] := Rotate(rot, Block(g, gCols, src.0, src.1));
      }
    }
    var bs := seq(size123, p requires 0 <= p < size123 reads a =>
                seq(size2, q requires 0 <= q < size2 reads a => a[p, q]));
    forall p | 0 <= p < size123
      ensures bs[p] == want[p]
    {
      assert forall q :: 0 <= q < size2 ==> bs[p][q] == a[p, q];
    }
    gm := Dense(bs, size2);
  }

  /** For a dislocation LGF of the checked shape every block is in range. */
  lemma DislSourcesInRange(g: Matrix, m: UpdateMethod, mapping: Mapping, size1: nat, size2: nat, size123: nat)
    requires IsDisl(m) && IsMatrix(g, 3 * size123, 3 * size2)
    ensures SourcesInRange(g, 3 * size2, m, mapping, size1, size2, size123)
  {
    forall i: nat, j: nat | i < size123 && j < size2
      ensures InRange(g, 3 * size2, SourceBlock(m, mapping, size1, i, j))
    {
    }
  }

  /** With the identity mapping the perfect-bulk methods rotate exactly the
      blocks the dislocation methods do. */
  lemma {:induction false} IdentityMappingIsDisl(g: Matrix, gCols: nat, rot: Mat3, mapping: Mapping,
                                                 size1: nat, size2: nat, size123: nat)
    requires IsMatrix(g, |g|, gCols) && 3 * size123 <= |g| && 3 * size2 <= gCols
    requires |mapping| >= size123
    requires forall i, k :: 0 <= i < size123 && size1 <= k < size1 + size2 ==> k < |mapping[i]| && mapping[i][k] == (i, k)
    ensures SourcesInRange(g, gCols, PerfbulkLGF123, mapping, size1, size2, size123)
    ensures SourcesInRange(g, gCols, DislLGF123, mapping, size1, size2, size123)
    ensures RotatedBlocks(g, gCols, rot, PerfbulkLGF123, mapping, size1, size2, size123)
         == RotatedBlocks(g, gCols, rot, DislLGF123, mapping, size1, size2, size123)
  {
    forall i: nat, j: nat | i < size123 && j < size2
      ensures SourceBlock(PerfbulkLGF123, mapping, size1, i, j) == (i, j)
    {
      assert mapping[i][j + size1] == (i, j + size1);
    }
    var pb := RotatedBlocks(g, gCols, rot, PerfbulkLGF123, mapping, size1, size2, size123);
    var dl := RotatedBlocks(g, gCols, rot, DislLGF123, mapping, size1, size2, size123);
    forall i | 0 <= i < size123
      ensures pb[i] == dl[i]
    {
      forall j | 0 <= j < size2
        ensures pb[i][j] == dl[i][j]
      {
        assert SourceBlock(PerfbulkLGF123, mapping, size1, i, j) == (i, j);
      }
    }
  }

  /** The script's LGF loading: size checks, then the method dispatch with the
      shape check for the dislocation methods, then the rotation. A
      perfect-bulk LGF is read through the mapping without a shape check, so
      the mapping is required to stay inside G. */
  method LoadLGF(stored: StoredSizes, g: Matrix, gCols: nat, rot: Mat3, name: string, mapping: Mapping,
                 size1: nat, size12: nat, size123: nat) returns (r: Result<Matrix, SetupError>)
    requires size1 <= size12 && IsMatrix(g, |g|, gCols)
    requires ParseMethod(name).Some? && !IsDisl(ParseMethod(name).value) ==>
      SourcesInRange(g, gCols, ParseMethod(name).value, mapping, size1, size12 - size1, size123)
    ensures CheckSizes(stored, size1, size12, size123).Some? ==> r == Err(CheckSizes(stored, size1, size12, size123).value)
    ensures CheckSizes(stored, size1, size12, size123).None? && ParseMethod(name).None? ==> r == Err(InvalidMethod)
    ensures CheckSizes(stored, size1, size12, size123).None? && ParseMethod(name).Some? && IsDisl(ParseMethod(name).value) ==>
      (r == Err(WrongShape) <==> |g| != 3 * size123 || gCols != 3 * (size12 - size1))
    ensures r.Ok? <==> (CheckSizes(stored, size1, size12, size123).None? && ParseMethod(name).Some? &&
                        (IsDisl(ParseMethod(name).value) ==> |g| == 3 * size123 && gCols == 3 * (size12 - size1)))
    ensures r.Ok? ==> IsMatrix(r.value, 3 * size123, 3 * (size12 - size1))
    ensures r.Ok? ==> r.value == Dense(RotatedBlocks(g, gCols, rot, ParseMethod(name).value, mapping,
                                                     size1, size12 - size1, size123), size12 - size1)
  {
    var check := CheckSizes(stored, size1, size12, size123);
    if check.Some? {
      return Err(check.value);
    }
    var size2 := size12 - size1;
    var parsed := ParseMethod(name);
    if parsed.None? {
      return Err(InvalidMethod);
    }
    var m := parsed.value;
    if IsDisl(m) {
      if |g| != 3 * size123 || gCols != 3 * size2 {
        return Err(WrongShape);
      }
      DislSourcesInRange(g, m, mapping, size1, size2, size123);
    }
    var gm := RotateLGF(g, gCols, rot, m, mapping, size1, size2, size123);
    r := Ok(gm);
  }
}
