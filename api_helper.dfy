/** The host-side reference code of the batched interface (api/src/helper.c):
    the CPU transpose used to check the accelerator and the input generator. */
module ApiHelper {
  import opened Fpga
  import opened BlockIndex

  /** cpu_mTranspose: transposes each of the first `batch` n x n blocks of `verifyData`
      in place, staging the result in a scratch buffer and copying it back. */
  method CpuMTranspose(verifyData: array<Float2>, n: nat, batch: nat)
    requires batch * (n * n) <= verifyData.Length
    modifies verifyData
    ensures verifyData[..] == BlockTransposed(old(verifyData[..]), n, batch)
  {
    ghost var a0 := verifyData[..];
    var nn := n * n;
    var temp := new Float2[batch * nn];
    var k := 0;
    while k < batch
      invariant 0 <= k <= batch
      invariant Staged(temp[..], a0, n, k * nn)
      modifies temp
    {
      StageBlock(temp, verifyData, a0, n, batch, k);
      k := k + 1;
    }
    StagedComplete(temp[..], a0, n, batch);
    CopyBack(verifyData, temp, a0, BlockTransposed(a0, n, batch));
  }

  /** The middle loop of cpu_mTranspose: the rows of block k. */
  method StageBlock(temp: array<Float2>, verifyData: array<Float2>, ghost a0: seq<Float2>,
                    n: nat, batch: nat, k: nat)
    requires temp != verifyData && verifyData[..] == a0
    requires temp.Length == batch * (n * n) <= verifyData.Length && k < batch
    requires Staged(temp[..], a0, n, k * (n * n))
    modifies temp
    ensures Staged(temp[..], a0, n, (k + 1) * (n * n))
  {
    var i := 0;
    while i < n
      invariant 0 <= i <= n
      invariant Staged(temp[..], a0, n, Cell(k, i, 0, n))
      modifies temp
    {
      StageRow(temp, verifyData, a0, n, batch, k, i);
      i := i + 1;
    }
    assert Cell(k, n, 0, n) == (k + 1) * (n * n);
  }

  /** The inner loop of cpu_mTranspose: cell (i, j) of block k is copied to cell (j, i)
      of block k of the scratch buffer, for every column j. */
  method StageRow(temp: array<Float2>, verifyData: array<Float2>, ghost a0: seq<Float2>,
                  n: nat, batch: nat, k: nat, i: nat)
    requires temp != verifyData && verifyData[..] == a0
    requires temp.Length == batch * (n * n) <= verifyData.Length && k < batch && i < n
    requires Staged(temp[..], a0, n, Cell(k, i, 0, n))
    modifies temp
    ensures Staged(temp[..], a0, n, Cell(k, i + 1, 0, n))
  {
    var nn := n * n;
    NextBlock(k, batch, nn);
    var j := 0;
    while j < n
      invariant 0 <= j <= n
      invariant Staged(temp[..], a0, n, Cell(k, i, j, n))
      modifies temp
    {
      CellBound(i, j, n);
      SrcAt(k, i, j, n);
      var src, dst := k * nn + i * n + j, k * nn + j * n + i;
      assert src == Cell(k, i, j, n) && dst == Src(src, n);
      StagedStep(temp[..], a0, n, src, batch);
      temp[dst] := verifyData[src];
      j := j + 1;
    }
    assert Cell(k, i, n, n) == Cell(k, i + 1, 0, n);
  }

  /** get_input_data: writes (i, i) at offset i of each of the first `iter` n x n blocks
      of both arrays (which may be the same array). */
  method GetInputData(transposeData: array<Float2>, cpuTransposeData: array<Float2>, n: nat, iter: nat)
    requires iter * (n * n) <= transposeData.Length && iter * (n * n) <= cpuTransposeData.Length
    modifies transposeData, cpuTransposeData
    ensures transposeData[..] == IndexFill(old(transposeData[..]), n * n, iter)
    ensures cpuTransposeData[..] == IndexFill(old(cpuTransposeData[..]), n * n, iter)
  {
    ghost var t0, c0 := transposeData[..], cpuTransposeData[..];
    var nn := n * n;
    var j := 0;
    while j < iter
      invariant 0 <= j <= iter
      invariant FilledUpTo(transposeData[..], t0, nn, j * nn)
      invariant FilledUpTo(cpuTransposeData[..], c0, nn, j * nn)
    {
      var i := 0;
      while i < nn
        invariant 0 <= i <= nn
        invariant FilledUpTo(transposeData[..], t0, nn, j * nn + i)
        invariant FilledUpTo(cpuTransposeData[..], c0, nn, j * nn + i)
      {
        var disp := j * nn;
        NextBlock(j, iter, nn);
        DivModUnique(disp + i, nn, j, i);
        transposeData[disp + i] := Sample(i);
        cpuTransposeData[disp + i] := Sample(i);
        i := i + 1;
      }
      assert j * nn + nn == (j + 1) * nn;
      j := j + 1;
    }
    assert transposeData[..] == IndexFill(t0, nn, iter);
    assert cpuTransposeData[..] == IndexFill(c0, nn, iter);
  }
}
