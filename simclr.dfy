/**
 * SIMCLRLoss: the SimCLR contrastive loss between two augmented views of one
 * local batch, with its label/mask cache.
 *
 * Each view is normalized and gathered across workers. Sample i of view a
 * is classified over cat([ab, aa - mask]): the first block holds its
 * similarities with every gathered row of view b, the second its
 * similarities with every gathered row of view a. Its target is its own
 * global index, which lies in the first block, and the mask removes its
 * similarity with itself from the second.
 */
module Simclr {
  import opened Wrappers
  import opened Tensors
  import opened Labels

  /** The local rows and the gather agree with a world of equal n x d shards. */
  predicate ViewsFit(aug1: Matrix, aug2: Matrix, rank: int, worldSize: nat, peers1: seq<Matrix>, peers2: seq<Matrix>)
  {
    && |aug1| > 0
    && IsMatrix(aug1, |aug1|, Cols(aug1))
    && IsMatrix(aug2, |aug1|, Cols(aug1))
    && 0 <= rank < worldSize
    && Shards(peers1, worldSize, |aug1|, Cols(aug1))
    && Shards(peers2, worldSize, |aug1|, Cols(aug1))
  }

  /**
   * cat([q @ kOther.t() / tau, q @ kSame.t() / tau - masks], dim=1): the
   * logits of one view, cross-view block first, masked same-view block second.
   */
  function ViewLogits(q: Matrix, kOther: Matrix, kSame: Matrix, masks: Matrix, tau: real): (r: Matrix)
    requires tau != 0.0
    requires Compatible(q, kOther) && Compatible(q, kSame) && |kOther| == |kSame|
    requires IsMatrix(masks, |q|, |kSame|)
    ensures IsMatrix(r, |q|, 2 * |kSame|)
  {
    var cross := DivBy(MatMulT(q, kOther), tau);
    var same := Sub(DivBy(MatMulT(q, kSame), tau), masks);
    CatColumns(cross, same)
  }

  /** The two concatenated logit matrices of a forward call: view a first, view b second. */
  function SimclrLogits(k: Kernels, tau: real, masks: Matrix, aug1: Matrix, aug2: Matrix,
                        rank: int, worldSize: nat, peers1: seq<Matrix>, peers2: seq<Matrix>): (r: (Matrix, Matrix))
    requires tau != 0.0
    requires ViewsFit(aug1, aug2, rank, worldSize, peers1, peers2)
    requires IsMatrix(masks, |aug1|, |aug1| * worldSize)
    ensures IsMatrix(r.0, |aug1|, 2 * (|aug1| * worldSize))
    ensures IsMatrix(r.1, |aug1|, 2 * (|aug1| * worldSize))
  {
    var qa, qb := NormalizeRows(k, aug1), NormalizeRows(k, aug2);
    var ka, kb := Gathered(qa, rank, peers1), Gathered(qb, rank, peers2);
    (ViewLogits(qa, kb, ka, masks, tau), ViewLogits(qb, ka, kb, masks, tau))
  }

  /**
   * What SIMCLRLoss.forward returns, given the cached labels and mask:
   * the mean of the two views' cross-entropy losses, reported under both
   * "loss" and "ssl_loss", and the accuracy of view a's logits under "ssl_acc".
   */
  function SimclrOutputs(k: Kernels, tau: real, labels: seq<int>, masks: Matrix, aug1: Matrix, aug2: Matrix,
                         rank: int, worldSize: nat, peers1: seq<Matrix>, peers2: seq<Matrix>): (r: Record)
    requires tau != 0.0
    requires ViewsFit(aug1, aug2, rank, worldSize, peers1, peers2)
    requires |labels| == |aug1| && IsMatrix(masks, |aug1|, |aug1| * worldSize)
    ensures r.keys == ["loss", "ssl_loss", "ssl_acc"]
    ensures r.entries.Keys == {"loss", "ssl_loss", "ssl_acc"}
    ensures r.entries["loss"] == r.entries["ssl_loss"]
    ensures 0.0 <= r.entries["ssl_acc"] <= 100.0
  {
    var logits := SimclrLogits(k, tau, masks, aug1, aug2, rank, worldSize, peers1, peers2);
    var loss := (k.crossEntropy(logits.0, labels) + k.crossEntropy(logits.1, labels)) / 2.0;
    var acc := Accuracy(Argmaxes(k, logits.0), labels);
    Record(["loss", "ssl_loss", "ssl_acc"], map["loss" := loss, "ssl_loss" := loss, "ssl_acc" := acc])
  }

  // ---------------------------------------------------------------------
  // The logit layout
  // ---------------------------------------------------------------------

  /**
   * Sample i's target label is a column of the first (cross-view) block of
   * view a's logits, and there it holds the similarity of sample i's two
   * views: the positive pair.
   */
  lemma TargetInCrossBlock(k: Kernels, tau: real, aug1: Matrix, aug2: Matrix, rank: int, worldSize: nat,
                           peers1: seq<Matrix>, peers2: seq<Matrix>, i: nat)
    requires tau != 0.0
    requires ViewsFit(aug1, aug2, rank, worldSize, peers1, peers2)
    requires i < |aug1|
    ensures var n, w := |aug1|, |aug1| * worldSize;
      var target := LabelVector(n, rank)[i];
      var logits := SimclrLogits(k, tau, RankMask(n, rank, worldSize), aug1, aug2, rank, worldSize, peers1, peers2).0;
      && 0 <= target < w
      && logits[i][target] == Dot(NormalizeRows(k, aug1)[i], NormalizeRows(k, aug2)[i]) / tau
  {
    var n := |aug1|;
    LabelsInRange(n, rank, worldSize);
    var target := LabelVector(n, rank)[i];
    var qa, qb := NormalizeRows(k, aug1), NormalizeRows(k, aug2);
    var ka, kb := Gathered(qa, rank, peers1), Gathered(qb, rank, peers2);
    GatheredOwnBlock(qb, rank, peers2, i);
    var mask := RankMask(n, rank, worldSize);
    assert SimclrLogits(k, tau, mask, aug1, aug2, rank, worldSize, peers1, peers2).0 == ViewLogits(qa, kb, ka, mask, tau);
    ViewLogitsAt(qa, kb, ka, mask, tau, i, target);
  }

  /**
   * The same global index in the second (same-view) block holds sample i's
   * similarity with itself, lowered by 1e9.
   */
  lemma SelfSimilarityMasked(k: Kernels, tau: real, aug1: Matrix, aug2: Matrix, rank: int, worldSize: nat,
                             peers1: seq<Matrix>, peers2: seq<Matrix>, i: nat)
    requires tau != 0.0
    requires ViewsFit(aug1, aug2, rank, worldSize, peers1, peers2)
    requires i < |aug1|
    ensures var n, w := |aug1|, |aug1| * worldSize;
      var target := LabelVector(n, rank)[i];
      var logits := SimclrLogits(k, tau, RankMask(n, rank, worldSize), aug1, aug2, rank, worldSize, peers1, peers2).0;
      && 0 <= target < w
      && logits[i][w + target] == Dot(NormalizeRows(k, aug1)[i], NormalizeRows(k, aug1)[i]) / tau - MaskValue
  {
    var n := |aug1|;
    LabelsInRange(n, rank, worldSize);
    var target := LabelVector(n, rank)[i];
    MaskAt(n, rank, worldSize, i, target);
    var qa, qb := NormalizeRows(k, aug1), NormalizeRows(k, aug2);
    var ka, kb := Gathered(qa, rank, peers1), Gathered(qb, rank, peers2);
    GatheredOwnBlock(qa, rank, peers1, i);
    var mask := RankMask(n, rank, worldSize);
    assert SimclrLogits(k, tau, mask, aug1, aug2, rank, worldSize, peers1, peers2).0 == ViewLogits(qa, kb, ka, mask, tau);
    ViewLogitsAt(qa, kb, ka, mask, tau, i, target);
  }

  /**
   * Every other column of the same-view block is left as computed: the mask
   * touches only the sample's own global index.
   */
  lemma OtherColumnsUnmasked(k: Kernels, tau: real, aug1: Matrix, aug2: Matrix, rank: int, worldSize: nat,
                             peers1: seq<Matrix>, peers2: seq<Matrix>, i: nat, j: nat)
    requires tau != 0.0
    requires ViewsFit(aug1, aug2, rank, worldSize, peers1, peers2)
    requires i < |aug1| && j < |aug1| * worldSize && j != LabelVector(|aug1|, rank)[i]
    ensures var n, w := |aug1|, |aug1| * worldSize;
      var logits := SimclrLogits(k, tau, RankMask(n, rank, worldSize), aug1, aug2, rank, worldSize, peers1, peers2).0;
      var ka := Gathered(NormalizeRows(k, aug1), rank, peers1);
      && |ka| == w
      && logits[i][w + j] == Dot(NormalizeRows(k, aug1)[i], ka[j]) / tau
  {
    var n := |aug1|;
    MaskAt(n, rank, worldSize, i, j);
    var qa, qb := NormalizeRows(k, aug1), NormalizeRows(k, aug2);
    var ka, kb := Gathered(qa, rank, peers1), Gathered(qb, rank, peers2);
    var mask := RankMask(n, rank, worldSize);
    assert SimclrLogits(k, tau, mask, aug1, aug2, rank, worldSize, peers1, peers2).0 == ViewLogits(qa, kb, ka, mask, tau);
    ViewLogitsAt(qa, kb, ka, mask, tau, i, j);
  }

  /** Column j of the first block is a cross-view similarity; column w + j of the second, a masked same-view one. */
  lemma ViewLogitsAt(q: Matrix, kOther: Matrix, kSame: Matrix, masks: Matrix, tau: real, i: nat, j: nat)
    requires tau != 0.0
    requires Compatible(q, kOther) && Compatible(q, kSame) && |kOther| == |kSame|
    requires IsMatrix(masks, |q|, |kSame|)
    requires i < |q| && j < |kSame|
    ensures ViewLogits(q, kOther, kSame, masks, tau)[i][j] == Dot(q[i], kOther[j]) / tau
    ensures ViewLogits(q, kOther, kSame, masks, tau)[i][|kSame| + j] == Dot(q[i], kSame[j]) / tau - masks[i][j]
  {
    var cross := DivBy(MatMulT(q, kOther), tau);
    var same := Sub(DivBy(MatMulT(q, kSame), tau), masks);
    assert ViewLogits(q, kOther, kSame, masks, tau)[i] == cross[i] + same[i];
  }

  /**
   * The SimCLR loss is symmetric in the two views: swapping aug1 with aug2
   * (and their gathers) swaps the two cross-entropy terms of the mean.
   */
  lemma LossSymmetric(k: Kernels, tau: real, labels: seq<int>, masks: Matrix, aug1: Matrix, aug2: Matrix,
                      rank: int, worldSize: nat, peers1: seq<Matrix>, peers2: seq<Matrix>)
    requires tau != 0.0
    requires ViewsFit(aug1, aug2, rank, worldSize, peers1, peers2)
    requires |labels| == |aug1| && IsMatrix(masks, |aug1|, |aug1| * worldSize)
    ensures ViewsFit(aug2, aug1, rank, worldSize, peers2, peers1)
    ensures SimclrOutputs(k, tau, labels, masks, aug2, aug1, rank, worldSize, peers2, peers1).entries["loss"]
         == SimclrOutputs(k, tau, labels, masks, aug1, aug2, rank, worldSize, peers1, peers2).entries["loss"]
  {
    assert Cols(aug2) == Cols(aug1);
    var l := SimclrLogits(k, tau, masks, aug1, aug2, rank, worldSize, peers1, peers2);
    var l' := SimclrLogits(k, tau, masks, aug2, aug1, rank, worldSize, peers2, peers1);
    assert l'.0 == l.1 && l'.1 == l.0;
  }

  /**
   * View b's logits cat([ba, bb - mask]) are view a's logits of the call with
   * the two views (and their gathers) exchanged. So every layout lemma about
   * view a holds for view b too.
   */
  lemma ViewBLogitsAreSwapped(k: Kernels, tau: real, masks: Matrix, aug1: Matrix, aug2: Matrix,
                              rank: int, worldSize: nat, peers1: seq<Matrix>, peers2: seq<Matrix>)
    requires tau != 0.0
    requires ViewsFit(aug1, aug2, rank, worldSize, peers1, peers2)
    requires IsMatrix(masks, |aug1|, |aug1| * worldSize)
    ensures ViewsFit(aug2, aug1, rank, worldSize, peers2, peers1)
    ensures SimclrLogits(k, tau, masks, aug2, aug1, rank, worldSize, peers2, peers1).0
         == SimclrLogits(k, tau, masks, aug1, aug2, rank, worldSize, peers1, peers2).1
  {
    assert Cols(aug2) == Cols(aug1);
  }

  /**
   * In view b's logits, sample i's target holds the similarity of its two
   * views, and the same index of the same-view block holds its
   * self-similarity lowered by 1e9: the mask acts on bb as it does on aa.
   */
  lemma ViewBTargetAndMask(k: Kernels, tau: real, aug1: Matrix, aug2: Matrix, rank: int, worldSize: nat,
                           peers1: seq<Matrix>, peers2: seq<Matrix>, i: nat)
    requires tau != 0.0
    requires ViewsFit(aug1, aug2, rank, worldSize, peers1, peers2)
    requires i < |aug1|
    ensures var n, w := |aug1|, |aug1| * worldSize;
      var target := LabelVector(n, rank)[i];
      var logits := SimclrLogits(k, tau, RankMask(n, rank, worldSize), aug1, aug2, rank, worldSize, peers1, peers2).1;
      && 0 <= target < w
      && logits[i][target] == Dot(NormalizeRows(k, aug2)[i], NormalizeRows(k, aug1)[i]) / tau
      && logits[i][w + target] == Dot(NormalizeRows(k, aug2)[i], NormalizeRows(k, aug2)[i]) / tau - MaskValue
  {
    var n := |aug1|;
    var mask := RankMask(n, rank, worldSize);
    ViewBLogitsAreSwapped(k, tau, mask, aug1, aug2, rank, worldSize, peers1, peers2);
    assert |aug2| == n;
    TargetInCrossBlock(k, tau, aug2, aug1, rank, worldSize, peers2, peers1, i);
    SelfSimilarityMasked(k, tau, aug2, aug1, rank, worldSize, peers2, peers1, i);
  }

  // ---------------------------------------------------------------------
  // The module with its cache
  // ---------------------------------------------------------------------

  class SimclrLoss {
    const tau: real
    var labels: Option<seq<int>>
    var masks: Option<Matrix>
    var lastLocalBatchSize: Option<nat>
    // The rank and world size the cached labels and mask were built with.
    ghost var cachedRank: int
    ghost var cachedWorldSize: int

    /** The cache is empty, or holds the labels and mask of its last batch size. */
    ghost predicate Valid()
      reads this
    {
      && tau != 0.0
      && match lastLocalBatchSize
         case None => labels == None && masks == None
         case Some(n) =>
           && 0 <= cachedRank < cachedWorldSize
           && labels == Some(LabelVector(n, cachedRank))
           && masks == Some(RankMask(n, cachedRank, cachedWorldSize))
    }

    constructor (temperature: real := 0.1)
      requires temperature != 0.0
      ensures Valid()
      ensures tau == temperature
      ensures labels == None && masks == None && lastLocalBatchSize == None
    {
      tau := temperature;
      labels := None;
      masks := None;
      lastLocalBatchSize := None;
    }

    /**
     * SIMCLRLoss.forward. The labels and mask are rebuilt exactly when the
     * local batch size differs from the last one; otherwise they are reused
     * unchanged. The record is the loss of the two views over those labels.
     * A call that reuses the cache must come with the world size the cached
     * mask was built with, as it does for the life of a training process.
     */
    method Forward(kernels: Kernels, aug1: Matrix, aug2: Matrix, rank: int, worldSize: nat,
                   peers1: seq<Matrix>, peers2: seq<Matrix>) returns (out: Record)
      requires Valid()
      requires ViewsFit(aug1, aug2, rank, worldSize, peers1, peers2)
      requires lastLocalBatchSize == Some(|aug1|) ==> cachedWorldSize == worldSize
      modifies this
      ensures Valid()
      ensures lastLocalBatchSize == Some(|aug1|) && cachedWorldSize == worldSize
      ensures old(lastLocalBatchSize) == Some(|aug1|) ==>
                labels == old(labels) && masks == old(masks) && cachedRank == old(cachedRank)
      ensures old(lastLocalBatchSize) != Some(|aug1|) ==>
                && labels == Some(LabelVector(|aug1|, rank))
                && masks == Some(RankMask(|aug1|, rank, worldSize))
                && cachedRank == rank
      ensures labels.Some? && masks.Some? && |labels.value| == |aug1|
      ensures IsMatrix(masks.value, |aug1|, |aug1| * worldSize)
      ensures out == SimclrOutputs(kernels, tau, labels.value, masks.value, aug1, aug2, rank, worldSize, peers1, peers2)
    {
      var localBatchSize := |aug1|;
      if Some(localBatchSize) != lastLocalBatchSize {
        labels := Some(LabelVector(localBatchSize, rank));
        masks := Some(RankMask(localBatchSize, rank, worldSize));
        lastLocalBatchSize := Some(localBatchSize);
        cachedRank, cachedWorldSize := rank, worldSize;
      }
      out := SimclrOutputs(kernels, tau, labels.value, masks.value, aug1, aug2, rank, worldSize, peers1, peers2);
    }
  }
}
