/**
 * The tensor vocabulary the loss code is written in: matrices of reals, the
 * row-wise operations torch performs for it, Python slicing, `torch.cat`, the
 * rank-ordered layout of an all-gather, and the metric records the loss
 * modules return.
 *
 * Arithmetic is exact over `real`. The primitives whose results depend on
 * floating point or on numerical library code (a square-root norm, cross
 * entropy, argmax with its tie-breaking, cosine similarity) are not defined
 * here: they are handed in as a `Kernels` value, so every statement proved
 * about the model holds whatever those primitives compute.
 */
module Tensors {

  type Row = seq<real>
  type Matrix = seq<Row>

  /** The numerical primitives of the tensor library, left uninterpreted. */
  datatype Kernels = Kernels(
    norm: Row -> real,                         // Euclidean length of one row
    crossEntropy: (Matrix, seq<int>) -> real,  // F.cross_entropy(logits, targets), mean over rows
    argmax: Row -> int,                        // torch.argmax over one row
    cosineSimilarity: (Row, Row) -> real)      // F.cosine_similarity of two rows

  /** `m` has `rows` rows of `cols` entries each. */
  predicate IsMatrix(m: Matrix, rows: nat, cols: nat)
  {
    |m| == rows && forall i :: 0 <= i < |m| ==> |m[i]| == cols
  }

  /** The width of a matrix, read off its first row. */
  function Cols(m: Matrix): nat
  {
    if |m| == 0 then 0 else |m[0]|
  }

  /** Every row of `q` can be multiplied with every row of `k`. */
  predicate Compatible(q: Matrix, k: Matrix)
  {
    forall i, j :: 0 <= i < |q| && 0 <= j < |k| ==> |q[i]| == |k[j]|
  }

  /** `a` and `b` have the same shape, row by row. */
  predicate SameShape(a: Matrix, b: Matrix)
  {
    |a| == |b| && forall i :: 0 <= i < |a| ==> |a[i]| == |b[i]|
  }

  function Max(x: real, y: real): real
  {
    if x < y then y else x
  }

  /** The `eps` that F.normalize uses by default. */
  const NormEps: real := 0.000000000001

  /** F.normalize of one row: the row divided by its norm, the norm clamped below at `NormEps`. */
  function Normalize(k: Kernels, x: Row): (r: Row)
    ensures |r| == |x|
  {
    var d := Max(k.norm(x), NormEps);
    seq(|x|, j requires 0 <= j < |x| => x[j] / d)
  }

  /** F.normalize(m, dim=-1): every row normalized on its own. */
  function NormalizeRows(k: Kernels, m: Matrix): (r: Matrix)
    ensures SameShape(r, m)
  {
    seq(|m|, i requires 0 <= i < |m| => Normalize(k, m[i]))
  }

  function Dot(x: Row, y: Row): real
    requires |x| == |y|
  {
    if |x| == 0 then 0.0 else x[0] * y[0] + Dot(x[1..], y[1..])
  }

  /** q @ k.t(): entry (i, j) is the dot product of row i of q with row j of k. */
  function MatMulT(q: Matrix, k: Matrix): (r: Matrix)
    requires Compatible(q, k)
    ensures IsMatrix(r, |q|, |k|)
  {
    seq(|q|, i requires 0 <= i < |q| =>
      seq(|k|, j requires 0 <= j < |k| => Dot(q[i], k[j])))
  }

  /** c * m, entry by entry. */
  function Scale(c: real, m: Matrix): (r: Matrix)
    ensures SameShape(r, m)
  {
    seq(|m|, i requires 0 <= i < |m| =>
      seq(|m[i]|, j requires 0 <= j < |m[i]| => c * m[i][j]))
  }

  /** m / t, entry by entry. */
  function DivBy(m: Matrix, t: real): (r: Matrix)
    requires t != 0.0
    ensures SameShape(r, m)
  {
    seq(|m|, i requires 0 <= i < |m| =>
      seq(|m[i]|, j requires 0 <= j < |m[i]| => m[i][j] / t))
  }

  /** a - b, entry by entry, on two matrices of one shape. */
  function Sub(a: Matrix, b: Matrix): (r: Matrix)
    requires SameShape(a, b)
    ensures SameShape(r, a)
  {
    seq(|a|, i requires 0 <= i < |a| =>
      seq(|a[i]|, j requires 0 <= j < |a[i]| => a[i][j] - b[i][j]))
  }

  /** torch.cat([a, b], dim=1): row i is row i of a followed by row i of b. */
  function CatColumns(a: Matrix, b: Matrix): (r: Matrix)
    requires |a| == |b|
    ensures |r| == |a|
    ensures forall i :: 0 <= i < |r| ==> |r[i]| == |a[i]| + |b[i]|
  {
    seq(|a|, i requires 0 <= i < |a| => a[i] + b[i])
  }

  /** Python's s[:k], which stops at the end of s when k is past it. */
  function SliceTo<T>(s: seq<T>, k: nat): (r: seq<T>)
    ensures |r| == if k <= |s| then k else |s|
    ensures forall i :: 0 <= i < |r| ==> r[i] == s[i]
  {
    if k <= |s| then s[..k] else s
  }

  /** Python's s[k:], which is empty when k is past the end of s. */
  function SliceFrom<T>(s: seq<T>, k: nat): (r: seq<T>)
    ensures |r| == if k <= |s| then |s| - k else 0
    ensures forall i :: 0 <= i < |r| ==> r[i] == s[k + i]
  {
    if k <= |s| then s[k..] else []
  }

  /** torch.cat([e, e], dim=0): the rows of e, twice. */
  function Tile<T>(e: seq<T>): (r: seq<T>)
    ensures |r| == 2 * |e|
  {
    e + e
  }

  /**
   * The global tensor an all-gather returns: every worker's local tensor,
   * stacked along the rows in rank order (shard r belongs to rank r).
   */
  function AllGather(shards: seq<Matrix>): Matrix
  {
    if |shards| == 0 then [] else shards[0] + AllGather(shards[1..])
  }

  /** `count` shards of `rows` x `cols` each: what equal-sized workers contribute to a gather. */
  predicate Shards(s: seq<Matrix>, count: nat, rows: nat, cols: nat)
  {
    |s| == count && forall r :: 0 <= r < |s| ==> IsMatrix(s[r], rows, cols)
  }

  /**
   * The global tensor utils.all_gather_batch_with_grad returns for `local`:
   * one block of |local| rows per worker in rank order, where `peers[r]` is
   * what worker r contributes and this worker's own block is `local`.
   */
  function Gathered(local: Matrix, rank: nat, peers: seq<Matrix>): (g: Matrix)
    requires rank < |peers|
    requires IsMatrix(local, |local|, Cols(local)) && Shards(peers, |peers|, |local|, Cols(local))
    ensures IsMatrix(g, |local| * |peers|, Cols(local))
  {
    AllGatherShape(peers[rank := local], |local|, Cols(local));
    AllGather(peers[rank := local])
  }

  function Sum(xs: seq<real>): real
  {
    if |xs| == 0 then 0.0 else Sum(xs[..|xs| - 1]) + xs[|xs| - 1]
  }

  /** tensor.mean() of a non-empty vector. */
  function Mean(xs: seq<real>): real
    requires |xs| > 0
  {
    Sum(xs) / (|xs| as real)
  }

  /** (a * b).sum(dim=-1): the dot product of corresponding rows. */
  function RowDots(a: Matrix, b: Matrix): (r: seq<real>)
    requires SameShape(a, b)
    ensures |r| == |a|
  {
    seq(|a|, i requires 0 <= i < |a| => Dot(a[i], b[i]))
  }

  /**
   * A Python dict of scalar metrics: its keys in insertion order, and the
   * value stored under each.
   */
  datatype Record = Record(keys: seq<string>, entries: map<string, real>)

  // ---------------------------------------------------------------------
  // Layout lemmas
  // ---------------------------------------------------------------------

  /** s[:k] + s[k:] == s for every k, and s[:k] has min(k, |s|) elements. */
  lemma SliceSplit<T>(s: seq<T>, k: nat)
    ensures SliceTo(s, k) + SliceFrom(s, k) == s
    ensures |SliceTo(s, k)| == if k <= |s| then k else |s|
  {
  }

  /**
   * Splitting a stack of 2n rows at n gives two n-row views, the first the
   * top half and the second the bottom half, whose concatenation is the stack.
   */
  lemma SplitHalves<T>(s: seq<T>, n: nat)
    requires |s| == 2 * n
    ensures |SliceTo(s, n)| == n && |SliceFrom(s, n)| == n
    ensures SliceTo(s, n) + SliceFrom(s, n) == s
    ensures forall i :: 0 <= i < n ==> SliceTo(s, n)[i] == s[i] && SliceFrom(s, n)[i] == s[n + i]
  {
  }

  /** Tiling n rows gives 2n rows, and rows i and i + n are both row i of the input. */
  lemma TileRows<T>(e: seq<T>)
    ensures |Tile(e)| == 2 * |e|
    ensures forall i :: 0 <= i < |e| ==> Tile(e)[i] == e[i] && Tile(e)[i + |e|] == e[i]
  {
  }

  /** Normalizing rows commutes with splitting the stack: F.normalize acts row by row. */
  lemma NormalizeSlices(k: Kernels, m: Matrix, n: nat)
    ensures NormalizeRows(k, SliceTo(m, n)) == SliceTo(NormalizeRows(k, m), n)
    ensures NormalizeRows(k, SliceFrom(m, n)) == SliceFrom(NormalizeRows(k, m), n)
  {
    var nm := NormalizeRows(k, m);
    if n <= |m| {
      assert NormalizeRows(k, m[..n]) == nm[..n];
      assert NormalizeRows(k, m[n..]) == nm[n..] by {
        forall i | 0 <= i < |m| - n
          ensures NormalizeRows(k, m[n..])[i] == nm[n..][i]
        {
          assert m[n..][i] == m[n + i];
        }
      }
    }
  }

  /** The gathered tensor has one n-row block per worker, all of width d. */
  lemma {:induction false} AllGatherShape(shards: seq<Matrix>, n: nat, d: nat)
    requires Shards(shards, |shards|, n, d)
    ensures IsMatrix(AllGather(shards), n * |shards|, d)
  {
    if |shards| > 0 {
      AllGatherShape(shards[1..], n, d);
      assert n * |shards| == n + n * (|shards| - 1);
    }
  }

  /** Row n*r + i of the gathered tensor is row i of worker r's shard. */
  lemma {:induction false} AllGatherBlock(shards: seq<Matrix>, n: nat, d: nat, r: nat, i: nat)
    requires Shards(shards, |shards|, n, d)
    requires r < |shards| && i < n
    ensures n * r + i < |AllGather(shards)|
    ensures AllGather(shards)[n * r + i] == shards[r][i]
  {
    assert AllGather(shards) == shards[0] + AllGather(shards[1..]);
    assert |shards[0]| == n;
    if r > 0 {
      AllGatherBlock(shards[1..], n, d, r - 1, i);
      assert n * r + i == n + (n * (r - 1) + i) by {
        assert n * r == n * (r - 1) + n;
      }
    }
  }

  /** Multiplying by a natural number keeps the order of its other factor. */
  lemma MulMonotone(n: nat, a: int, b: int)
    requires a <= b
    ensures n * a <= n * b
  {
  }

  /** Row |local|*rank + i of the gathered tensor is row i of this worker's own tensor. */
  lemma GatheredOwnBlock(local: Matrix, rank: nat, peers: seq<Matrix>, i: nat)
    requires rank < |peers|
    requires IsMatrix(local, |local|, Cols(local)) && Shards(peers, |peers|, |local|, Cols(local))
    requires i < |local|
    ensures |local| * rank + i < |Gathered(local, rank, peers)|
    ensures Gathered(local, rank, peers)[|local| * rank + i] == local[i]
  {
    AllGatherBlock(peers[rank := local], |local|, Cols(local), rank, i);
  }
}
