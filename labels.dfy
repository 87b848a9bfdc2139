/**
 * The discrete bookkeeping both loss modules share: the global label vector
 * of a worker's local batch, the self-similarity mask built from it, and
 * accuracy as the share of predicted indices that hit their label.
 */
module Labels {
  import opened Tensors

  /**
   * local_batch_size * rank + torch.arange(local_batch_size): the position of
   * each local sample in the gathered batch, when every worker contributes
   * `n` rows in rank order.
   */
  function LabelVector(n: nat, rank: int): (labels: seq<int>)
    ensures |labels| == n
  {
    seq(n, i => n * rank + i)
  }

  /** The scale applied to the one-hot mask. */
  const MaskValue: real := 1000000000.0

  /** One row of F.one_hot(cls, width) * 1e9. */
  function OneHotRow(width: nat, cls: int): Row
  {
    seq(width, j => if j == cls then MaskValue else 0.0)
  }

  /**
   * F.one_hot(labels, width) * 1e9. one_hot refuses a class outside
   * [0, width), so the labels must lie in that range.
   */
  function OneHotMask(labels: seq<int>, width: nat): (m: Matrix)
    requires forall i :: 0 <= i < |labels| ==> 0 <= labels[i] < width
    ensures IsMatrix(m, |labels|, width)
  {
    seq(|labels|, i requires 0 <= i < |labels| => OneHotRow(width, labels[i]))
  }

  /** The number of non-zero entries of a row. */
  function CountNonzero(r: Row): nat
  {
    if |r| == 0 then 0
    else CountNonzero(r[..|r| - 1]) + (if r[|r| - 1] != 0.0 then 1 else 0)
  }

  /** pred.eq(labels).sum(): the number of positions where prediction and label agree. */
  function CountMatches(pred: seq<int>, labels: seq<int>): (c: nat)
    requires |pred| == |labels|
    ensures c <= |pred|
  {
    if |pred| == 0 then 0
    else CountMatches(pred[..|pred| - 1], labels[..|labels| - 1])
         + (if pred[|pred| - 1] == labels[|labels| - 1] then 1 else 0)
  }

  /** torch.argmax(logits, dim=-1): the predicted class of every row. */
  function Argmaxes(k: Kernels, logits: Matrix): (pred: seq<int>)
    ensures |pred| == |logits|
  {
    seq(|logits|, i requires 0 <= i < |logits| => k.argmax(logits[i]))
  }

  /**
   * 100 * correct / local_batch_size: the percentage of samples whose
   * predicted index is their label. It is 100 exactly when every prediction
   * is right and 0 exactly when none is.
   */
  function Accuracy(pred: seq<int>, labels: seq<int>): (acc: real)
    requires |pred| == |labels| > 0
    ensures 0.0 <= acc <= 100.0
    ensures acc == 100.0 <==> forall i :: 0 <= i < |pred| ==> pred[i] == labels[i]
    ensures acc == 0.0 <==> forall i :: 0 <= i < |pred| ==> pred[i] != labels[i]
  {
    var correct := CountMatches(pred, labels);
    CountMatchesAll(pred, labels);
    CountMatchesNone(pred, labels);
    Percentage(correct, |labels|);
    100.0 * (correct as real) / (|labels| as real)
  }

  // ---------------------------------------------------------------------
  // Lemmas
  // ---------------------------------------------------------------------

  /** 100 * c / n lies in [0, 100], reaching 100 only at c == n and 0 only at c == 0. */
  lemma Percentage(c: nat, n: nat)
    requires c <= n && n > 0
    ensures 0.0 <= 100.0 * (c as real) / (n as real) <= 100.0
    ensures 100.0 * (c as real) / (n as real) == 100.0 <==> c == n
    ensures 100.0 * (c as real) / (n as real) == 0.0 <==> c == 0
  {
    var cr, nr := c as real, n as real;
    var p := 100.0 * cr / nr;
    assert nr * p == 100.0 * cr;
    Cancel(nr, p, 100.0);
    Cancel(nr, p, 0.0);
    assert nr * 100.0 == 100.0 * nr && nr * 0.0 == 0.0;
    assert 0.0 <= p <= 100.0;
    assert (p == 100.0) == (nr * p == nr * 100.0) == (100.0 * cr == 100.0 * nr) == (cr == nr);
    assert (p == 0.0) == (nr * p == nr * 0.0) == (100.0 * cr == 0.0) == (cr == 0.0);
  }

  /** Multiplying by a positive real preserves order and equality, both ways. */
  lemma Cancel(a: real, x: real, y: real)
    requires a > 0.0
    ensures a * x < a * y <==> x < y
    ensures a * x == a * y <==> x == y
  {
    assert a * y - a * x == a * (y - x);
  }

  /** Every prediction is right exactly when the count of matches is the batch size. */
  lemma {:induction false} CountMatchesAll(pred: seq<int>, labels: seq<int>)
    requires |pred| == |labels|
    ensures CountMatches(pred, labels) == |pred| <==> forall i :: 0 <= i < |pred| ==> pred[i] == labels[i]
  {
    if |pred| > 0 {
      var p, l := pred[..|pred| - 1], labels[..|labels| - 1];
      CountMatchesAll(p, l);
      assert forall i :: 0 <= i < |p| ==> p[i] == pred[i] && l[i] == labels[i];
    }
  }

  /** No prediction is right exactly when the count of matches is zero. */
  lemma {:induction false} CountMatchesNone(pred: seq<int>, labels: seq<int>)
    requires |pred| == |labels|
    ensures CountMatches(pred, labels) == 0 <==> forall i :: 0 <= i < |pred| ==> pred[i] != labels[i]
  {
    if |pred| > 0 {
      var p, l := pred[..|pred| - 1], labels[..|labels| - 1];
      CountMatchesNone(p, l);
      assert forall i :: 0 <= i < |p| ==> p[i] == pred[i] && l[i] == labels[i];
    }
  }

  /**
   * The labels of rank `rank` are its own block of the gathered batch: label
   * i is n*rank + i, and the set of labels is exactly [n*rank, n*rank + n).
   */
  lemma LabelsAreOwnBlock(n: nat, rank: int)
    ensures |LabelVector(n, rank)| == n
    ensures forall i :: 0 <= i < n ==> LabelVector(n, rank)[i] == n * rank + i
    ensures forall g :: g in LabelVector(n, rank) <==> n * rank <= g < n * rank + n
  {
    var labels := LabelVector(n, rank);
    forall g | n * rank <= g < n * rank + n
      ensures g in labels
    {
      assert labels[g - n * rank] == g;
    }
  }

  /** With one worker (rank 0) the labels are 0, 1, ..., n-1. */
  lemma SingleWorkerLabels(n: nat)
    ensures LabelVector(n, 0) == seq(n, i => i)
  {
  }

  /**
   * When 0 <= rank < worldSize, every label indexes the gathered batch of
   * n * worldSize rows.
   */
  lemma LabelsInRange(n: nat, rank: int, worldSize: int)
    requires 0 <= rank < worldSize
    ensures forall i :: 0 <= i < n ==> 0 <= LabelVector(n, rank)[i] < n * worldSize
  {
    MulMonotone(n, rank + 1, worldSize);
    assert n * rank + n == n * (rank + 1);
  }

  /** A one-hot row has exactly one non-zero entry when its class is in range, and none otherwise. */
  lemma {:induction false} OneHotRowCount(width: nat, cls: int)
    ensures CountNonzero(OneHotRow(width, cls)) == if 0 <= cls < width then 1 else 0
  {
    if width > 0 {
      var r := OneHotRow(width, cls);
      assert r[..width - 1] == OneHotRow(width - 1, cls);
      OneHotRowCount(width - 1, cls);
    }
  }

  /**
   * The mask a worker of rank `rank` builds for a local batch of n rows:
   * F.one_hot(labels, n * worldSize) * 1e9.
   */
  function RankMask(n: nat, rank: int, worldSize: int): (m: Matrix)
    requires 0 <= rank < worldSize
    ensures IsMatrix(m, n, n * worldSize)
  {
    LabelsInRange(n, rank, worldSize);
    OneHotMask(LabelVector(n, rank), n * worldSize)
  }

  /** Entry (i, j) of the mask is 1e9 at j == n*rank + i and 0 elsewhere. */
  lemma MaskAt(n: nat, rank: int, worldSize: int, i: nat, j: nat)
    requires 0 <= rank < worldSize && i < n && j < n * worldSize
    ensures RankMask(n, rank, worldSize)[i][j] == if j == n * rank + i then MaskValue else 0.0
  {
  }

  /**
   * Row i of the mask holds 1e9 at column labels[i] = n*rank + i and 0
   * everywhere else, so exactly one entry of every row is masked.
   */
  lemma MaskPlacement(n: nat, rank: int, worldSize: int)
    requires 0 <= rank < worldSize
    ensures forall i, j :: 0 <= i < n && 0 <= j < n * worldSize ==>
              (RankMask(n, rank, worldSize)[i][j] == MaskValue <==> j == n * rank + i) &&
              (RankMask(n, rank, worldSize)[i][j] != MaskValue ==> RankMask(n, rank, worldSize)[i][j] == 0.0)
    ensures forall i :: 0 <= i < n ==> CountNonzero(RankMask(n, rank, worldSize)[i]) == 1
  {
    LabelsInRange(n, rank, worldSize);
    var labels := LabelVector(n, rank);
    var mask := RankMask(n, rank, worldSize);
    forall i | 0 <= i < n
      ensures CountNonzero(mask[i]) == 1
    {
      OneHotRowCount(n * worldSize, labels[i]);
    }
  }
}
