/** The host-side reference code of the library interface (host_api/common/helper.c):
    the single-matrix CPU transpose and the input generator. */
module HostHelper {
  import opened Fpga
  import opened BlockIndex

  /** compute_matrix_transpose: transposes the first n0 x n1 matrix of `verifyData` in
      place through a scratch buffer. Both strides use n1, so only square sizes mean a
      transpose; those are the only sizes the library accepts. */
  method ComputeMatrixTranspose(verifyData: array<Float2>, n0: nat, n1: nat)
    requires n0 == n1 && n0 * n1 <= verifyData.Length
    modifies verifyData
    ensures verifyData[..] == BlockTransposed(old(verifyData[..]), n1, 1)
  {
    ghost var a0 := verifyData[..];
    var temp := new Float2[n0 * n1];
    var i := 0;
    while i < n0
      invariant 0 <= i <= n0
      invariant Staged(temp[..], a0, n1, i * n1)
      modifies temp
    {
      StageRow(temp, verifyData, a0, n1, i);
      i := i + 1;
    }
    StagedComplete(temp[..], a0, n1, 1);
    CopyBack(verifyData, temp, a0, BlockTransposed(a0, n1, 1));
  }

  /** The inner loop of compute_matrix_transpose for row i. */
  method StageRow(temp: array<Float2>, verifyData: array<Float2>, ghost a0: seq<Float2>,
                  n: nat, i: nat)
    requires temp != verifyData && verifyData[..] == a0
    requires temp.Length == n * n <= verifyData.Length && i < n
    requires Staged(temp[..], a0, n, i * n)
    modifies temp
    ensures Staged(temp[..], a0, n, (i + 1) * n)
  {
    var j := 0;
    while j < n
      invariant 0 <= j <= n
      invariant Staged(temp[..], a0, n, i * n + j)
      modifies temp
    {
      CellBound(i, j, n);
      SrcAt(0, i, j, n);
      var src, dst := i * n + j, j * n + i;
      assert src == Cell(0, i, j, n) && dst == Src(src, n);
      StagedStep(temp[..], a0, n, src, 1);
      temp[dst] := verifyData[src];
      j := j + 1;
    }
    assert i * n + n == (i + 1) * n;
  }

  /** get_input_data: every one of the `iterations` passes writes (i, i) at offsets
      0 .. n0*n1-1 of both arrays, so only the first matrix is ever generated, and one
      pass gives the same result as many. */
  method GetInputData(transposeData: array<Float2>, cpuTransposeData: array<Float2>,
                      n0: nat, n1: nat, iterations: nat)
    requires iterations > 0 ==> n0 * n1 <= transposeData.Length && n0 * n1 <= cpuTransposeData.Length
    modifies transposeData, cpuTransposeData
    ensures transposeData[..] == IndexFill(old(transposeData[..]), n0 * n1, if iterations == 0 then 0 else 1)
    ensures cpuTransposeData[..] == IndexFill(old(cpuTransposeData[..]), n0 * n1, if iterations == 0 then 0 else 1)
  {
    ghost var t0, c0 := transposeData[..], cpuTransposeData[..];
    var m := n0 * n1;
    var j := 0;
    while j < iterations
      invariant 0 <= j <= iterations
      invariant FilledUpTo(transposeData[..], t0, m, if j == 0 then 0 else m)
      invariant FilledUpTo(cpuTransposeData[..], c0, m, if j == 0 then 0 else m)
    {
      var i := 0;
      while i < m
        invariant 0 <= i <= m
        invariant FilledUpTo(transposeData[..], t0, m, if j == 0 then i else m)
        invariant FilledUpTo(cpuTransposeData[..], c0, m, if j == 0 then i else m)
      {
        DivModUnique(i, m, 0, i);
        transposeData[i] := Sample(i);
        cpuTransposeData[i] := Sample(i);
        i := i + 1;
      }
      j := j + 1;
    }
    assert transposeData[..] == IndexFill(t0, m, if iterations == 0 then 0 else 1);
    assert cpuTransposeData[..] == IndexFill(c0, m, if iterations == 0 then 0 else 1);
  }
}
