/** Index arithmetic over row-major N x N blocks, and the specification functions
    for the two host-side reference transposes and the two input generators. */
module BlockIndex {
  import opened Fpga

  /** Multiplication by a non-negative factor is monotone. */
  lemma MulLe(a: int, b: int, c: nat)
    requires a <= b
    ensures a * c <= b * c
  {
    assert b * c - a * c == (b - a) * c;
  }

  /** A product of positive numbers is positive. */
  lemma MulPos(a: int, b: int)
    requires 0 < a && 0 < b
    ensures 0 < a * b
  {
    MulLe(1, a, b);
  }

  /** Euclidean division is determined by the quotient/remainder equation. */
  lemma DivModUnique(a: int, d: int, q: int, r: int)
    requires 0 < d && 0 <= r < d && a == q * d + r
    ensures a / d == q && a % d == r
  {
    var q', r' := a / d, a % d;
    assert q * d + r == q' * d + r';
    if q' < q {
      MulLe(q' + 1, q, d);
    } else if q < q' {
      MulLe(q + 1, q', d);
    }
  }

  /** Row `i` and column `j` of an n x n block lie inside the block. */
  lemma CellBound(i: nat, j: nat, n: nat)
    requires i < n && j < n
    ensures i * n + j < n * n
  {
    MulLe(i, n - 1, n);
  }

  /** The position of cell (i, j) of block k. */
  function Cell(k: nat, i: nat, j: nat, n: nat): nat
  {
    k * (n * n) + i * n + j
  }

  /** The position of cell (i, j) of block k in the transposed layout,
      i.e. the position that holds cell (j, i) afterwards. */
  function Src(p: nat, n: nat): (q: nat)
    requires n > 0
  {
    MulPos(n, n);
    var nn := n * n;
    var rem := p % nn;
    MulLe(0, p / nn, nn);
    MulLe(0, rem % n, n);
    (p / nn) * nn + (rem % n) * n + rem / n
  }

  /** Splitting a position of a block sequence into block, row and column recovers them. */
  lemma CellCoords(k: nat, i: nat, j: nat, n: nat)
    requires i < n && j < n
    ensures Cell(k, i, j, n) / (n * n) == k
    ensures Cell(k, i, j, n) % (n * n) == i * n + j
    ensures (i * n + j) / n == i && (i * n + j) % n == j
  {
    CellBound(i, j, n);
    assert Cell(k, i, j, n) == k * (n * n) + (i * n + j);
    DivModUnique(Cell(k, i, j, n), n * n, k, i * n + j);
    DivModUnique(i * n + j, n, i, j);
  }

  /** Every position is the cell of some block, row and column. */
  lemma CellOf(p: nat, n: nat) returns (k: nat, i: nat, j: nat)
    requires n > 0
    ensures i < n && j < n && p == Cell(k, i, j, n)
    ensures k == p / (n * n)
  {
    MulPos(n, n);
    var nn := n * n;
    var rem := p % nn;
    k, i, j := p / nn, rem / n, rem % n;
    assert rem == i * n + j;
    if n <= i {
      MulLe(n, i, n);
    }
  }

  /** Src maps cell (i, j) of block k to cell (j, i) of block k. */
  lemma SrcAt(k: nat, i: nat, j: nat, n: nat)
    requires i < n && j < n
    ensures Src(Cell(k, i, j, n), n) == Cell(k, j, i, n)
  {
    CellCoords(k, i, j, n);
  }

  /** A position lies below `batch` blocks exactly when its block number is below `batch`. */
  lemma BelowBlocks(p: nat, n: nat, batch: nat)
    requires n > 0
    ensures p < batch * (n * n) <==> p / (n * n) < batch
  {
    var k, i, j := CellOf(p, n);
    CellBound(i, j, n);
    if k < batch {
      MulLe(k + 1, batch, n * n);
    } else {
      MulLe(batch, k, n * n);
    }
  }

  /** Src never moves an element to another block, and undoes itself. */
  lemma SrcFacts(p: nat, n: nat)
    requires n > 0
    ensures Src(p, n) / (n * n) == p / (n * n)
    ensures Src(Src(p, n), n) == p
  {
    var k, i, j := CellOf(p, n);
    SrcAt(k, i, j, n);
    SrcAt(k, j, i, n);
    CellCoords(k, j, i, n);
  }

  /** Src keeps a position inside the first `batch` blocks. */
  lemma SrcBelow(p: nat, n: nat, batch: nat)
    requires n > 0 && p < batch * (n * n)
    ensures Src(p, n) < batch * (n * n)
  {
    SrcFacts(p, n);
    BelowBlocks(p, n, batch);
    BelowBlocks(Src(p, n), n, batch);
  }

  /** The specification of the batched reference transpose: each of the first `batch`
      row-major n x n blocks of `s` is transposed, the rest of `s` is kept. */
  ghost function BlockTransposed(s: seq<Float2>, n: nat, batch: nat): (r: seq<Float2>)
    requires batch * (n * n) <= |s|
    ensures |r| == |s|
  {
    seq(|s|, p requires 0 <= p < |s| =>
      if p < batch * (n * n) then (assert n > 0; SrcBelow(p, n, batch); s[Src(p, n)]) else s[p])
  }

  /** Element (i, j) of block k moves to (j, i) of block k. */
  lemma TransposedAt(s: seq<Float2>, n: nat, batch: nat, k: nat, i: nat, j: nat)
    requires batch * (n * n) <= |s| && k < batch && i < n && j < n
    ensures Cell(k, i, j, n) < batch * (n * n) && Cell(k, j, i, n) < batch * (n * n)
    ensures BlockTransposed(s, n, batch)[Cell(k, j, i, n)] == s[Cell(k, i, j, n)]
  {
    CellCoords(k, i, j, n);
    CellCoords(k, j, i, n);
    BelowBlocks(Cell(k, i, j, n), n, batch);
    BelowBlocks(Cell(k, j, i, n), n, batch);
    SrcAt(k, j, i, n);
  }

  /** Diagonal elements stay where they are. */
  lemma TransposedDiagonal(s: seq<Float2>, n: nat, batch: nat, k: nat, i: nat)
    requires batch * (n * n) <= |s| && k < batch && i < n
    ensures Cell(k, i, i, n) < |s|
    ensures BlockTransposed(s, n, batch)[Cell(k, i, i, n)] == s[Cell(k, i, i, n)]
  {
    TransposedAt(s, n, batch, k, i, i);
  }

  /** Only the first batch * n * n elements are rewritten; with no block, or with 1 x 1
      blocks, nothing changes. */
  lemma TransposedFrame(s: seq<Float2>, n: nat, batch: nat)
    requires batch * (n * n) <= |s|
    ensures BlockTransposed(s, n, batch)[batch * (n * n)..] == s[batch * (n * n)..]
    ensures batch == 0 || n <= 1 ==> BlockTransposed(s, n, batch) == s
  {
    var r := BlockTransposed(s, n, batch);
    var b := batch * (n * n);
    forall p | b <= p < |s|
      ensures r[p] == s[p]
    {
    }
    assert r[b..] == s[b..];
    if n == 1 {
      forall p | 0 <= p < b
        ensures r[p] == s[p]
      {
        SrcOne(p);
      }
      assert r == s;
    } else if batch == 0 || n == 0 {
      assert b == 0;
      assert r == r[b..];
    }
  }

  /** With 1 x 1 blocks Src is the identity. */
  lemma SrcOne(p: nat)
    ensures Src(p, 1) == p
  {
    var k, i, j := CellOf(p, 1);
    SrcAt(k, i, j, 1);
  }

  /** Transposing twice gives back the input: transposition is an involution on each block. */
  lemma TransposedTwice(s: seq<Float2>, n: nat, batch: nat)
    requires batch * (n * n) <= |s|
    ensures BlockTransposed(BlockTransposed(s, n, batch), n, batch) == s
  {
    var r := BlockTransposed(s, n, batch);
    var r2 := BlockTransposed(r, n, batch);
    forall p | 0 <= p < |s|
      ensures r2[p] == s[p]
    {
      if p < batch * (n * n) {
        SrcBelow(p, n, batch);
        SrcFacts(p, n);
      }
    }
  }

  /** A position of block k lies between k * n * n and (k + 1) * n * n. */
  lemma InBlock(x: nat, n: nat, k: nat)
    requires n > 0 && x / (n * n) == k
    ensures k * (n * n) <= x < k * (n * n) + n * n
  {
    var k', i, j := CellOf(x, n);
    CellBound(i, j, n);
  }

  /** Src read inside block k, with positions counted from the start of that block. */
  function BlockSrc(p: nat, n: nat, k: nat): (q: nat)
    requires n > 0 && p < n * n
    ensures q < n * n
    ensures Src(k * (n * n) + p, n) == k * (n * n) + q
  {
    SrcInBlock(k, p, n);
    Src(k * (n * n) + p, n) - k * (n * n)
  }

  /** Src keeps every position of block k inside block k. */
  lemma SrcInBlock(k: nat, p: nat, n: nat)
    requires n > 0 && p < n * n
    ensures k * (n * n) <= Src(k * (n * n) + p, n) < k * (n * n) + n * n
  {
    var nn := n * n;
    var i, j := p / n, p % n;
    DivModUnique(p, n, i, j);
    if n <= i {
      MulLe(n, i, n);
    }
    var c := Cell(k, i, j, n);
    assert c == k * nn + p;
    SrcAt(k, i, j, n);
    CellBound(j, i, n);
  }

  /** Rearranging a sequence along an index map that undoes itself keeps its multiset
      of elements. */
  lemma {:induction false} InvolutionPermutes(s: seq<Float2>, t: seq<Float2>, f: nat -> nat)
    requires |s| == |t|
    requires forall p :: 0 <= p < |t| ==> f(p) < |t| && f(f(p)) == p && t[p] == s[f(p)]
    ensures multiset(t) == multiset(s)
    decreases |t|
  {
    if |t| > 0 {
      var m := |t| - 1;
      var q := f(m);
      var s' := s[q := s[m]][m := s[q]];
      var g := (p: nat) => if p == q then q else f(p);
      SwapRestricts(s, t, f, s', g);
      InvolutionPermutes(s'[..m], t[..m], g);
      SwapMultiset(s, q, m);
      assert t == t[..m] + [t[m]];
      assert s' == s'[..m] + [s'[m]];
    }
  }

  /** After swapping the last position m with f(m), the first m positions are related by
      the involution that fixes f(m). */
  lemma SwapRestricts(s: seq<Float2>, t: seq<Float2>, f: nat -> nat, s': seq<Float2>, g: nat -> nat)
    requires |s| == |t| > 0
    requires forall p :: 0 <= p < |t| ==> f(p) < |t| && f(f(p)) == p && t[p] == s[f(p)]
    requires s' == s[f(|t| - 1) := s[|t| - 1]][|t| - 1 := s[f(|t| - 1)]]
    requires forall p: nat :: g(p) == if p == f(|t| - 1) then f(|t| - 1) else f(p)
    ensures forall p :: 0 <= p < |t| - 1 ==>
      g(p) < |t| - 1 && g(g(p)) == p && t[..|t| - 1][p] == s'[..|t| - 1][g(p)]
  {
    var m := |t| - 1;
    var q := f(m);
    assert f(q) == m;
    forall p | 0 <= p < m
      ensures g(p) < m && g(g(p)) == p && t[..m][p] == s'[..m][g(p)]
    {
      if p != q {
        assert f(p) != m && f(p) != q;
      }
    }
  }

  /** Swapping two positions keeps the multiset of elements. */
  lemma SwapMultiset(s: seq<Float2>, q: nat, m: nat)
    requires q < |s| && m < |s|
    ensures multiset(s[q := s[m]][m := s[q]]) == multiset(s)
  {
  }

  /** Block k + 1 starts no later than the end of the first `batch` blocks. */
  lemma NextBlock(k: nat, batch: nat, nn: nat)
    requires k < batch
    ensures k * nn + nn <= batch * nn
  {
    MulLe(k + 1, batch, nn);
  }

  /** BlockSrc undoes itself. */
  lemma BlockSrcTwice(p: nat, n: nat, k: nat)
    requires n > 0 && p < n * n
    ensures BlockSrc(BlockSrc(p, n, k), n, k) == p
  {
    SrcFacts(k * (n * n) + p, n);
  }

  /** Inside block k (the m = n * n positions from lo = k * m on), the result reads the
      input at BlockSrc. */
  lemma TransposedInBlock(s: seq<Float2>, n: nat, batch: nat, k: nat, p: nat, m: nat, lo: nat)
    requires n > 0 && m == n * n && lo == k * m && batch * m <= |s| && k < batch && p < m
    ensures lo + m <= batch * m
    ensures BlockTransposed(s, n, batch)[lo + p] == s[lo + BlockSrc(p, n, k)]
  {
    NextBlock(k, batch, m);
    var q := BlockSrc(p, n, k);
    assert k * (n * n) == lo;
    assert Src(lo + p, n) == lo + q;
    assert lo + p < batch * (n * n);
  }

  /** A slice rearranged along an index involution keeps its multiset of elements. */
  lemma SlicePermutes(s: seq<Float2>, r: seq<Float2>, lo: nat, m: nat, f: nat -> nat)
    requires lo + m <= |s| == |r|
    requires forall p :: 0 <= p < m ==> f(p) < m && f(f(p)) == p && r[lo + p] == s[lo + f(p)]
    ensures multiset(r[lo..lo + m]) == multiset(s[lo..lo + m])
  {
    var u, v := r[lo..lo + m], s[lo..lo + m];
    forall p | 0 <= p < m
      ensures f(p) < m && f(f(p)) == p && u[p] == v[f(p)]
    {
    }
    InvolutionPermutes(v, u, f);
  }

  /** No element crosses a block boundary: block k of the result is a permutation of
      block k of the input. */
  lemma TransposedBlockPermutes(s: seq<Float2>, n: nat, batch: nat, k: nat)
    requires batch * (n * n) <= |s| && k < batch
    ensures k * (n * n) + n * n <= |s|
    ensures multiset(BlockTransposed(s, n, batch)[k * (n * n)..k * (n * n) + n * n])
         == multiset(s[k * (n * n)..k * (n * n) + n * n])
  {
    NextBlock(k, batch, n * n);
    if n > 0 {
      var r := BlockTransposed(s, n, batch);
      var m := n * n;
      var lo := k * m;
      forall p | 0 <= p < m
        ensures r[lo + p] == s[lo + BlockSrc(p, n, k)]
      {
        TransposedInBlock(s, n, batch, k, p, m, lo);
      }
      BlockPermutes(s, r, n, k, m, lo);
    }
  }

  /** A sequence that reads block k of `s` (the m = n * n positions from lo = k * m on)
      along BlockSrc holds, in that block, a permutation of block k of `s`. */
  lemma BlockPermutes(s: seq<Float2>, r: seq<Float2>, n: nat, k: nat, m: nat, lo: nat)
    requires n > 0 && m == n * n && lo == k * m && lo + m <= |s| == |r|
    requires forall p :: 0 <= p < m ==> r[lo + p] == s[lo + BlockSrc(p, n, k)]
    ensures multiset(r[lo..lo + m]) == multiset(s[lo..lo + m])
  {
    var f: nat -> nat := (p: nat) => if p < m then BlockSrc(p, n, k) else p;
    forall p | 0 <= p < m
      ensures f(p) < m && f(f(p)) == p && r[lo + p] == s[lo + f(p)]
    {
      BlockSrcTwice(p, n, k);
    }
    SlicePermutes(s, r, lo, m, f);
  }

  /** The staging buffer of a reference transpose after the source positions below `c`
      have been copied into it: the element read from position q sits at Src(q). */
  ghost predicate Staged(temp: seq<Float2>, a: seq<Float2>, n: nat, c: nat)
  {
    n > 0 ==> forall q :: 0 <= q < c ==> q < |a| && Src(q, n) < |temp| && temp[Src(q, n)] == a[q]
  }

  /** Copying source position c to Src(c) extends what is staged by one position. */
  lemma StagedStep(temp: seq<Float2>, a: seq<Float2>, n: nat, c: nat, batch: nat)
    requires n > 0 && c < batch * (n * n) && batch * (n * n) == |temp| && c < |a|
    requires Staged(temp, a, n, c)
    ensures Src(c, n) < |temp|
    ensures Staged(temp[Src(c, n) := a[c]], a, n, c + 1)
  {
    SrcBelow(c, n, batch);
    SrcFacts(c, n);
    var w := Src(c, n);
    var t' := temp[w := a[c]];
    forall q | 0 <= q < c + 1
      ensures q < |a| && Src(q, n) < |t'| && t'[Src(q, n)] == a[q]
    {
      if q < c {
        SrcFacts(q, n);
        assert Src(q, n) != w;
      }
    }
  }

  /** Once every source position of the first `batch` blocks is staged, the staging
      buffer holds the transposed blocks. */
  lemma StagedComplete(temp: seq<Float2>, a: seq<Float2>, n: nat, batch: nat)
    requires batch * (n * n) == |temp| <= |a|
    requires Staged(temp, a, n, batch * (n * n))
    ensures forall p :: 0 <= p < |temp| ==> temp[p] == BlockTransposed(a, n, batch)[p]
  {
    forall p | 0 <= p < |temp|
      ensures temp[p] == BlockTransposed(a, n, batch)[p]
    {
      assert n > 0;
      SrcBelow(p, n, batch);
      SrcFacts(p, n);
    }
  }

  /** The value the generators store at offset i of a matrix: (i, i). */
  function Sample(i: nat): (v: Float2)
    ensures v.x == v.y
  {
    Float2(i as real, i as real)
  }

  /** The specification of the input generators: the first `count` blocks of `m`
      elements each hold the offsets 0 .. m-1 of their block; the rest of `s` is kept. */
  ghost function IndexFill(s: seq<Float2>, m: nat, count: nat): (r: seq<Float2>)
    requires count * m <= |s|
    ensures |r| == |s|
  {
    seq(|s|, p requires 0 <= p < |s| => if m > 0 && p < count * m then Sample(p % m) else s[p])
  }

  /** The generator's state after the positions below `c` are written. */
  ghost predicate FilledUpTo(s: seq<Float2>, s0: seq<Float2>, m: nat, c: nat)
  {
    |s| == |s0| &&
    forall p :: 0 <= p < |s| ==> s[p] == (if m > 0 && p < c then Sample(p % m) else s0[p])
  }

  /** Offset i of block j holds (i, i), the same value as offset i of block 0. */
  lemma FillAt(s: seq<Float2>, m: nat, count: nat, j: nat, i: nat)
    requires count * m <= |s| && j < count && i < m
    ensures j * m + i < count * m
    ensures IndexFill(s, m, count)[j * m + i] == Sample(i) == IndexFill(s, m, count)[i]
  {
    NextBlock(j, count, m);
    DivModUnique(j * m + i, m, j, i);
    DivModUnique(i, m, 0, i);
  }

  /** Only the first count * m elements are rewritten; with count 0 nothing changes. */
  lemma FillFrame(s: seq<Float2>, m: nat, count: nat)
    requires count * m <= |s|
    ensures IndexFill(s, m, count)[count * m..] == s[count * m..]
    ensures count == 0 ==> IndexFill(s, m, count) == s
  {
  }

  /** The generated prefix does not depend on what the array held before, so two arrays
      filled alike agree on it. */
  lemma FillPrefixAgrees(s1: seq<Float2>, s2: seq<Float2>, m: nat, count: nat)
    requires count * m <= |s1| && count * m <= |s2|
    ensures IndexFill(s1, m, count)[..count * m] == IndexFill(s2, m, count)[..count * m]
  {
  }

  /** Filling twice is the same as filling once. */
  lemma FillIdempotent(s: seq<Float2>, m: nat, count: nat)
    requires count * m <= |s|
    ensures IndexFill(IndexFill(s, m, count), m, count) == IndexFill(s, m, count)
  {
  }

  /** Work-group arithmetic for `count` N x N matrices split into work-items of 8 samples,
      N a positive multiple of 8: groups of N items and groups of N * N / 8 items both
      divide the items exactly, the latter once per matrix. */
  lemma GroupGeometry(n: nat, count: nat)
    requires n > 0 && n % 8 == 0
    ensures count * n * n / 8 % n == 0 && count * n * n / 8 / n == count * n / 8
    ensures n * n / 8 > 0
    ensures count * n * n / 8 % (n * n / 8) == 0 && count * n * n / 8 / (n * n / 8) == count
  {
    var m := n / 8;
    assert n == 8 * m;
    assert n * n == 8 * (8 * m * m);
    assert n * n / 8 == 8 * m * m;
    assert count * n * n == 8 * (count * (8 * m * m));
    assert count * n * n / 8 == count * (8 * m * m);
    assert count * (8 * m * m) == (count * m) * n;
    assert count * n / 8 == count * m by {
      assert count * n == 8 * (count * m);
    }
    DivModUnique(count * n * n / 8, n, count * m, 0);
    DivModUnique(count * n * n / 8, 8 * m * m, count, 0);
  }

  /** The copy-back loop: the first |temp| elements of `a` become those of `temp`, which
      are those of `r`; the rest of `a` already agree with `r`. */
  method CopyBack(a: array<Float2>, temp: array<Float2>, ghost a0: seq<Float2>, ghost r: seq<Float2>)
    requires a != temp && a[..] == a0 && |r| == a.Length && temp.Length <= a.Length
    requires forall p :: 0 <= p < temp.Length ==> temp[p] == r[p]
    requires forall p :: temp.Length <= p < a.Length ==> a0[p] == r[p]
    modifies a
    ensures a[..] == r
  {
    var p := 0;
    while p < temp.Length
      invariant 0 <= p <= temp.Length
      invariant forall q :: 0 <= q < p ==> a[q] == temp[q]
      invariant forall q :: p <= q < a.Length ==> a[q] == a0[q]
    {
      a[p] := temp[p];
      p := p + 1;
    }
    assert a[..] == r;
  }
}
