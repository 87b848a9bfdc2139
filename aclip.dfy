/**
 * ACLIPLoss, the combined training loss, and the two module-level helpers
 * beside it: get_metric_names and cal_simsiam_loss.
 *
 * The combined loss runs the SimCLR module on the two self-supervised image
 * views. It adds a BYOL-style consistency term between the online features
 * of both views and the momentum features, tiled to cover both views. It
 * also adds an image/text contrastive term once for each image view. The
 * labels of the image/text terms are cached by the same rule as in SimCLR.
 */
module Aclip {
  import opened Wrappers
  import opened Tensors
  import opened Labels
  import opened Simclr

  /** The names of the metrics the combined loss reports, in order. */
  const MetricNames: seq<string> :=
    ["loss", "simclr_loss", "im_byol_loss", "contra_loss_1", "contra_loss_2", "clip_acc"]

  /** get_metric_names: "loss", then the five component metrics appended with extend. */
  method GetMetricNames() returns (names: seq<string>)
    ensures names == MetricNames
  {
    names := ["loss"];
    names := names + ["simclr_loss", "im_byol_loss", "contra_loss_1", "contra_loss_2", "clip_acc"];
  }

  /**
   * The six names are distinct, and a set of strings holds exactly them when
   * it is the set of MetricNames.
   */
  lemma MetricNamesDistinct()
    ensures forall i, j :: 0 <= i < j < |MetricNames| ==> MetricNames[i] != MetricNames[j]
    ensures (set name | name in MetricNames)
         == {"loss", "simclr_loss", "im_byol_loss", "contra_loss_1", "contra_loss_2", "clip_acc"}
  {
    assert |MetricNames[0]| == 4 && |MetricNames[1]| == 11 && |MetricNames[2]| == 12;
    assert |MetricNames[3]| == 13 && |MetricNames[4]| == 13 && |MetricNames[5]| == 8;
    assert MetricNames[3][12] != MetricNames[4][12];
  }

  // ---------------------------------------------------------------------
  // cal_simsiam_loss
  // ---------------------------------------------------------------------

  /** The bare `Exception` raised for a version other than the two supported ones. */
  datatype SimsiamError = UnsupportedVersion

  /**
   * cal_simsiam_loss(p, z, version): the negative mean cosine similarity of
   * corresponding rows. "original" normalizes both sides and takes row dot
   * products. "simplified", the default, calls F.cosine_similarity. Any other
   * version fails.
   */
  function SimsiamLoss(k: Kernels, p: Matrix, z: Matrix, version: string := "simplified"): (r: Result<real, SimsiamError>)
    requires version == "original" || version == "simplified" ==>
               |p| > 0 && IsMatrix(p, |p|, Cols(p)) && IsMatrix(z, |p|, Cols(p))
    ensures r.Failure? <==> version != "original" && version != "simplified"
    ensures r.Failure? ==> r.error == UnsupportedVersion
    ensures version == "original" ==>
              r == Success(-Mean(RowDots(NormalizeRows(k, p), NormalizeRows(k, z))))
  {
    if version == "original" then
      // z.detach() only stops gradients; it leaves the values unchanged.
      Success(-Mean(RowDots(NormalizeRows(k, p), NormalizeRows(k, z))))
    else if version == "simplified" then
      Success(-Mean(seq(|p|, i requires 0 <= i < |p| => k.cosineSimilarity(p[i], z[i]))))
    else
      Failure(UnsupportedVersion)
  }

  /**
   * The two supported versions compute the same loss whenever the cosine
   * similarity kernel is the dot product of the normalized rows. They differ
   * only in how each one guards small norms.
   */
  lemma SimsiamVersionsAgree(k: Kernels, p: Matrix, z: Matrix)
    requires |p| > 0 && IsMatrix(p, |p|, Cols(p)) && IsMatrix(z, |p|, Cols(p))
    requires forall x: Row, y: Row :: |x| == |y| ==> k.cosineSimilarity(x, y) == Dot(Normalize(k, x), Normalize(k, y))
    ensures SimsiamLoss(k, p, z, "original") == SimsiamLoss(k, p, z, "simplified")
  {
    var cos := seq(|p|, i requires 0 <= i < |p| => k.cosineSimilarity(p[i], z[i]));
    assert cos == RowDots(NormalizeRows(k, p), NormalizeRows(k, z));
  }

  // ---------------------------------------------------------------------
  // The consistency term and the weighting
  // ---------------------------------------------------------------------

  /** x - y, entry by entry. */
  function Minus(x: Row, y: Row): (r: Row)
    requires |x| == |y|
    ensures |r| == |x|
  {
    seq(|x|, j requires 0 <= j < |x| => x[j] - y[j])
  }

  /** The per-row term of loss_fn: 2 - 2 * (x * y).sum(). */
  function ByolTerm(x: Row, y: Row): real
    requires |x| == |y|
  {
    2.0 - 2.0 * Dot(x, y)
  }

  /**
   * loss_fn(byol_feats, cat([byol_feats_e, byol_feats_e])).mean(): both
   * sides normalized, one term per row of the 2N online features, each
   * against the momentum features tiled to 2N rows.
   */
  function ByolLoss(k: Kernels, feats: Matrix, featsE: Matrix): real
    requires ByolFit(feats, featsE)
  {
    var x, y := NormalizeRows(k, feats), NormalizeRows(k, Tile(featsE));
    Mean(seq(|x|, i requires 0 <= i < |x| => ByolTerm(x[i], y[i])))
  }

  /** The fixed weighting of the combined loss: 0.5, 0.5, 1 and 2. */
  function CombinedLoss(contra1: real, contra2: real, simclr: real, byol: real): real
  {
    0.5 * contra1 + 0.5 * contra2 + simclr + 2.0 * byol
  }

  // ---------------------------------------------------------------------
  // The image/text terms
  // ---------------------------------------------------------------------

  /** The tensors one forward call receives. */
  datatype AclipInputs = AclipInputs(
    imageEmbed: Matrix,     // 2N rows: view 1 on top of view 2
    textEmbed: Matrix,      // N rows
    logitScale: real,
    imageSslEmbed: Matrix,  // 2N rows: the two self-supervised views
    byolFeats: Matrix,      // 2N rows: online features of both views
    byolFeatsE: Matrix)     // N rows: momentum features

  /** What the other workers contribute to each gather of the call. */
  datatype AclipPeers = AclipPeers(
    ssl1: seq<Matrix>, ssl2: seq<Matrix>,
    image1: seq<Matrix>, image2: seq<Matrix>, text: seq<Matrix>)

  /** The shapes of the image/text part: N text rows, 2N image rows, all of one width, ranks in range. */
  predicate ClipFit(inp: AclipInputs, rank: int, worldSize: nat, peers: AclipPeers)
  {
    var n, dt := |inp.textEmbed|, Cols(inp.textEmbed);
    && n > 0 && 0 <= rank < worldSize
    && IsMatrix(inp.textEmbed, n, dt)
    && IsMatrix(inp.imageEmbed, 2 * n, dt)
    && Shards(peers.image1, worldSize, n, dt)
    && Shards(peers.image2, worldSize, n, dt)
    && Shards(peers.text, worldSize, n, dt)
  }

  /** The BYOL features: 2N online rows against N momentum rows of the same width. */
  predicate ByolFit(feats: Matrix, featsE: Matrix)
  {
    && |featsE| > 0 && IsMatrix(featsE, |featsE|, Cols(featsE))
    && IsMatrix(feats, 2 * |featsE|, Cols(featsE))
  }

  /** The shapes a forward call works with, N = text_embed.size(0). */
  predicate InputsFit(inp: AclipInputs, rank: int, worldSize: nat, peers: AclipPeers)
  {
    var n := |inp.textEmbed|;
    && ClipFit(inp, rank, worldSize, peers)
    && |inp.imageSslEmbed| == 2 * n
    && ViewsFit(SliceTo(inp.imageSslEmbed, n), SliceFrom(inp.imageSslEmbed, n), rank, worldSize, peers.ssl1, peers.ssl2)
    && ByolFit(inp.byolFeats, inp.byolFeatsE)
  }

  /** logit_scale * q @ kAll.t(). */
  function ScaledLogits(scale: real, q: Matrix, kAll: Matrix): (r: Matrix)
    requires Compatible(q, kAll)
    ensures IsMatrix(r, |q|, |kAll|)
  {
    Scale(scale, MatMulT(q, kAll))
  }

  /** The two halves of the normalized image embeddings and the normalized text, each gathered. */
  datatype ClipViews = ClipViews(
    image1: Matrix, image2: Matrix, text: Matrix,
    imageAll1: Matrix, imageAll2: Matrix, textAll: Matrix)

  /** Every local block can be multiplied with the gathered blocks it is compared against. */
  predicate ViewsCompatible(v: ClipViews)
  {
    && Compatible(v.image1, v.textAll) && Compatible(v.image2, v.textAll)
    && Compatible(v.text, v.imageAll1) && Compatible(v.text, v.imageAll2)
  }

  /**
   * Three local n x d blocks, each next to what the all-gather returns for it
   * when the peers contribute `peers`.
   */
  predicate ViewsGathered(v: ClipViews, n: nat, d: nat, rank: int, peers: AclipPeers)
  {
    && n > 0 && 0 <= rank
    && IsMatrix(v.image1, n, d) && IsMatrix(v.image2, n, d) && IsMatrix(v.text, n, d)
    && rank < |peers.image1| && Shards(peers.image1, |peers.image1|, n, d)
    && rank < |peers.image2| && Shards(peers.image2, |peers.image2|, n, d)
    && rank < |peers.text| && Shards(peers.text, |peers.text|, n, d)
    && v.imageAll1 == Gathered(v.image1, rank, peers.image1)
    && v.imageAll2 == Gathered(v.image2, rank, peers.image2)
    && v.textAll == Gathered(v.text, rank, peers.text)
  }

  /** Two matrices of one width can be multiplied, one with the other transposed. */
  lemma SameWidthCompatible(a: Matrix, b: Matrix, d: nat)
    requires IsMatrix(a, |a|, d) && IsMatrix(b, |b|, d)
    ensures Compatible(a, b)
  {
  }

  /** F.normalize, the split of image_embed at N, and the gather of the three local tensors. */
  function ClipViewsOf(k: Kernels, inp: AclipInputs, rank: int, worldSize: nat, peers: AclipPeers): (v: ClipViews)
    requires ClipFit(inp, rank, worldSize, peers)
    ensures ViewsGathered(v, |inp.textEmbed|, Cols(inp.textEmbed), rank, peers)
    ensures ViewsCompatible(v)
  {
    var n, d := |inp.textEmbed|, Cols(inp.textEmbed);
    var imageN, textN := NormalizeRows(k, inp.imageEmbed), NormalizeRows(k, inp.textEmbed);
    var image1, image2 := SliceTo(imageN, n), SliceFrom(imageN, n);
    assert IsMatrix(image1, n, d) && IsMatrix(image2, n, d) && IsMatrix(textN, n, d);
    var imageAll1, imageAll2 := Gathered(image1, rank, peers.image1), Gathered(image2, rank, peers.image2);
    var textAll := Gathered(textN, rank, peers.text);
    SameWidthCompatible(image1, textAll, d);
    SameWidthCompatible(image2, textAll, d);
    SameWidthCompatible(textN, imageAll1, d);
    SameWidthCompatible(textN, imageAll2, d);
    ClipViews(image1, image2, textN, imageAll1, imageAll2, textAll)
  }

  /**
   * contra_loss for one image view: the mean of the image-to-text and the
   * text-to-image cross-entropy losses over the same labels.
   */
  function ContraLoss(k: Kernels, scale: real, image: Matrix, text: Matrix, imageAll: Matrix, textAll: Matrix,
                      labels: seq<int>): real
    requires Compatible(image, textAll) && Compatible(text, imageAll)
  {
    (k.crossEntropy(ScaledLogits(scale, image, textAll), labels)
     + k.crossEntropy(ScaledLogits(scale, text, imageAll), labels)) / 2.0
  }

  /** The image/text results of one call: the two contrastive losses and the accuracy. */
  datatype ClipTerms = ClipTerms(contra1: real, contra2: real, acc: real)

  /**
   * contra_loss_1 over view 1, contra_loss_2 over view 2, and clip_acc: the
   * accuracy of the image logits computed last, those of view 2.
   */
  function ClipTermsOf(k: Kernels, inp: AclipInputs, labels: seq<int>, rank: int, worldSize: nat,
                       peers: AclipPeers): (t: ClipTerms)
    requires ClipFit(inp, rank, worldSize, peers)
    requires |labels| == |inp.textEmbed|
    ensures 0.0 <= t.acc <= 100.0
  {
    var v := ClipViewsOf(k, inp, rank, worldSize, peers);
    ClipTerms(ContraLoss(k, inp.logitScale, v.image1, v.text, v.imageAll1, v.textAll, labels),
              ContraLoss(k, inp.logitScale, v.image2, v.text, v.imageAll2, v.textAll, labels),
              Accuracy(Argmaxes(k, ScaledLogits(inp.logitScale, v.image2, v.textAll)), labels))
  }

  /**
   * What ACLIPLoss.forward returns, given the cached labels and the SimCLR
   * loss: the six metrics of MetricNames. "loss" is the fixed weighting of
   * the other four losses.
   */
  function AclipOutputs(k: Kernels, inp: AclipInputs, labels: seq<int>, rank: int, worldSize: nat,
                        peers: AclipPeers, simclrLoss: real): (r: Record)
    requires InputsFit(inp, rank, worldSize, peers)
    requires |labels| == |inp.textEmbed|
    ensures r.keys == MetricNames
    ensures r.entries.Keys == {"loss", "simclr_loss", "im_byol_loss", "contra_loss_1", "contra_loss_2", "clip_acc"}
    ensures r.entries["loss"] == CombinedLoss(r.entries["contra_loss_1"], r.entries["contra_loss_2"],
                                              r.entries["simclr_loss"], r.entries["im_byol_loss"])
    ensures r.entries["simclr_loss"] == simclrLoss
    ensures 0.0 <= r.entries["clip_acc"] <= 100.0
  {
    var byol := ByolLoss(k, inp.byolFeats, inp.byolFeatsE);
    var t := ClipTermsOf(k, inp, labels, rank, worldSize, peers);
    Record(MetricNames,
           map["loss" := CombinedLoss(t.contra1, t.contra2, simclrLoss, byol), "simclr_loss" := simclrLoss,
               "im_byol_loss" := byol, "contra_loss_1" := t.contra1, "contra_loss_2" := t.contra2,
               "clip_acc" := t.acc])
  }

  // ---------------------------------------------------------------------
  // Lemmas
  // ---------------------------------------------------------------------

  /** The weighting treats the two image/text terms alike: swapping them leaves the loss unchanged. */
  lemma CombinedLossSymmetric(contra1: real, contra2: real, simclr: real, byol: real)
    ensures CombinedLoss(contra1, contra2, simclr, byol) == CombinedLoss(contra2, contra1, simclr, byol)
  {
  }

  /** (a - b)^2 = a^2 - 2ab + b^2. */
  lemma SquareOfDifference(a: real, b: real)
    ensures (a - b) * (a - b) == a * a - 2.0 * (a * b) + b * b
  {
  }

  /** |x - y|^2 = x.x - 2 x.y + y.y. */
  lemma {:induction false} DotMinusExpand(x: Row, y: Row)
    requires |x| == |y|
    ensures Dot(Minus(x, y), Minus(x, y)) == Dot(x, x) - 2.0 * Dot(x, y) + Dot(y, y)
  {
    if |x| > 0 {
      var d := Minus(x, y);
      assert d[1..] == Minus(x[1..], y[1..]);
      DotMinusExpand(x[1..], y[1..]);
      var a, b := x[0], y[0];
      assert Dot(d, d) == (a - b) * (a - b) + Dot(d[1..], d[1..]);
      assert Dot(x, x) == a * a + Dot(x[1..], x[1..]);
      assert Dot(x, y) == a * b + Dot(x[1..], y[1..]);
      assert Dot(y, y) == b * b + Dot(y[1..], y[1..]);
      SquareOfDifference(a, b);
    }
  }

  /**
   * For rows of unit length, the consistency term 2 - 2 x.y is the squared
   * Euclidean distance between them.
   */
  lemma ByolTermIsSquaredDistance(x: Row, y: Row)
    requires |x| == |y| && Dot(x, x) == 1.0 && Dot(y, y) == 1.0
    ensures ByolTerm(x, y) == Dot(Minus(x, y), Minus(x, y))
  {
    DotMinusExpand(x, y);
  }

  /**
   * When the norm kernel makes every normalized row a unit vector, the
   * consistency loss is the mean squared Euclidean distance between each
   * online feature and its tiled momentum target.
   */
  lemma ByolLossIsMeanSquaredDistance(k: Kernels, feats: Matrix, featsE: Matrix)
    requires ByolFit(feats, featsE)
    requires forall i :: 0 <= i < |feats| ==> Dot(Normalize(k, feats[i]), Normalize(k, feats[i])) == 1.0
    requires forall i :: 0 <= i < |featsE| ==> Dot(Normalize(k, featsE[i]), Normalize(k, featsE[i])) == 1.0
    ensures var x, y := NormalizeRows(k, feats), NormalizeRows(k, Tile(featsE));
      && |x| == |y| && (forall i :: 0 <= i < |x| ==> |x[i]| == |y[i]|)
      && ByolLoss(k, feats, featsE) == Mean(seq(|x|, i requires 0 <= i < |x| && |x[i]| == |y[i]| =>
                                                  Dot(Minus(x[i], y[i]), Minus(x[i], y[i]))))
  {
    var n := |featsE|;
    var x, y := NormalizeRows(k, feats), NormalizeRows(k, Tile(featsE));
    TileRows(featsE);
    var terms := seq(|x|, i requires 0 <= i < |x| => ByolTerm(x[i], y[i]));
    var dists := seq(|x|, i requires 0 <= i < |x| && |x[i]| == |y[i]| => Dot(Minus(x[i], y[i]), Minus(x[i], y[i])));
    forall i | 0 <= i < |x|
      ensures terms[i] == dists[i]
    {
      var e := if i < n then i else i - n;
      ByolTargetsTiled(k, featsE, e);
      assert y[i] == Normalize(k, featsE[e]);
      ByolTermIsSquaredDistance(x[i], y[i]);
    }
    assert terms == dists;
  }

  /**
   * Row i and row i + N of the online features are both held against the
   * normalized momentum features of sample i.
   */
  lemma ByolTargetsTiled(k: Kernels, featsE: Matrix, i: nat)
    requires i < |featsE|
    ensures |NormalizeRows(k, Tile(featsE))| == 2 * |featsE|
    ensures NormalizeRows(k, Tile(featsE))[i] == Normalize(k, featsE[i])
    ensures NormalizeRows(k, Tile(featsE))[i + |featsE|] == Normalize(k, featsE[i])
  {
    TileRows(featsE);
  }

  /**
   * The image/text target of sample i is its own global index. Against the
   * gathered keys, the logit of query row i at that index is the scaled
   * similarity of query i and this worker's own key i: sample i's image and
   * its own caption in the image logits, and the same pair the other way
   * round in the text logits.
   */
  lemma TargetIsMatchedPair(scale: real, query: Matrix, keys: Matrix, rank: nat, peers: seq<Matrix>, i: nat)
    requires rank < |peers| && |query| == |keys|
    requires IsMatrix(keys, |keys|, Cols(keys)) && IsMatrix(query, |keys|, Cols(keys))
    requires Shards(peers, |peers|, |keys|, Cols(keys))
    requires i < |keys|
    ensures Compatible(query, Gathered(keys, rank, peers))
    ensures var target := LabelVector(|keys|, rank)[i];
      && 0 <= target < |Gathered(keys, rank, peers)|
      && ScaledLogits(scale, query, Gathered(keys, rank, peers))[i][target] == scale * Dot(query[i], keys[i])
  {
    var g := Gathered(keys, rank, peers);
    SameWidthCompatible(query, g, Cols(keys));
    GatheredOwnBlock(keys, rank, peers, i);
    var target := LabelVector(|keys|, rank)[i];
    assert target == |keys| * rank + i;
  }

  /** image_embed with its two N-row views exchanged, and what the peers contribute for them. */
  function SwapViews(inp: AclipInputs): AclipInputs
  {
    var n := |inp.textEmbed|;
    inp.(imageEmbed := SliceFrom(inp.imageEmbed, n) + SliceTo(inp.imageEmbed, n))
  }

  function SwapPeers(peers: AclipPeers): AclipPeers
  {
    peers.(image1 := peers.image2, image2 := peers.image1)
  }

  /** Exchanging the image views exchanges the two contrastive losses. */
  lemma ClipTermsSwap(k: Kernels, inp: AclipInputs, labels: seq<int>, rank: int, worldSize: nat, peers: AclipPeers)
    requires ClipFit(inp, rank, worldSize, peers)
    requires |labels| == |inp.textEmbed|
    ensures ClipFit(SwapViews(inp), rank, worldSize, SwapPeers(peers))
    ensures var t, t' := ClipTermsOf(k, inp, labels, rank, worldSize, peers),
                         ClipTermsOf(k, SwapViews(inp), labels, rank, worldSize, SwapPeers(peers));
      t'.contra1 == t.contra2 && t'.contra2 == t.contra1
  {
    var n := |inp.textEmbed|;
    var inp', peers' := SwapViews(inp), SwapPeers(peers);
    SplitHalves(inp.imageEmbed, n);
    var top, bottom := SliceTo(inp.imageEmbed, n), SliceFrom(inp.imageEmbed, n);
    assert inp'.imageEmbed == bottom + top;
    assert SliceTo(inp'.imageEmbed, n) == bottom && SliceFrom(inp'.imageEmbed, n) == top;
    assert IsMatrix(inp'.imageEmbed, 2 * n, Cols(inp.textEmbed));
    NormalizeSlices(k, inp.imageEmbed, n);
    NormalizeSlices(k, inp'.imageEmbed, n);
    var v, v' := ClipViewsOf(k, inp, rank, worldSize, peers), ClipViewsOf(k, inp', rank, worldSize, peers');
    assert v'.image1 == v.image2 && v'.image2 == v.image1;
    assert v'.imageAll1 == v.imageAll2 && v'.imageAll2 == v.imageAll1;
  }

  /**
   * Exchanging the two image views (and what the peers contribute for them)
   * exchanges contra_loss_1 and contra_loss_2 and leaves the combined loss
   * unchanged.
   */
  lemma ViewSwapSymmetric(k: Kernels, inp: AclipInputs, labels: seq<int>, rank: int, worldSize: nat,
                          peers: AclipPeers, simclrLoss: real)
    requires InputsFit(inp, rank, worldSize, peers)
    requires |labels| == |inp.textEmbed|
    ensures InputsFit(SwapViews(inp), rank, worldSize, SwapPeers(peers))
    ensures var r := AclipOutputs(k, inp, labels, rank, worldSize, peers, simclrLoss);
      var r' := AclipOutputs(k, SwapViews(inp), labels, rank, worldSize, SwapPeers(peers), simclrLoss);
      && r'.entries["contra_loss_1"] == r.entries["contra_loss_2"]
      && r'.entries["contra_loss_2"] == r.entries["contra_loss_1"]
      && r'.entries["loss"] == r.entries["loss"]
  {
    ClipTermsSwap(k, inp, labels, rank, worldSize, peers);
  }

  /**
   * clip_acc depends on view 2 alone: two calls whose text, logit scale,
   * second image view and gathers for them agree report the same accuracy,
   * whatever view 1 holds.
   */
  lemma ClipAccuracyFromViewTwo(k: Kernels, inp: AclipInputs, inp': AclipInputs, labels: seq<int>, rank: int,
                                worldSize: nat, peers: AclipPeers, peers': AclipPeers, simclrLoss: real)
    requires InputsFit(inp, rank, worldSize, peers) && InputsFit(inp', rank, worldSize, peers')
    requires |labels| == |inp.textEmbed|
    requires inp'.textEmbed == inp.textEmbed && inp'.logitScale == inp.logitScale
    requires SliceFrom(inp'.imageEmbed, |inp.textEmbed|) == SliceFrom(inp.imageEmbed, |inp.textEmbed|)
    requires peers'.image2 == peers.image2 && peers'.text == peers.text
    ensures AclipOutputs(k, inp', labels, rank, worldSize, peers', simclrLoss).entries["clip_acc"]
         == AclipOutputs(k, inp, labels, rank, worldSize, peers, simclrLoss).entries["clip_acc"]
  {
    var n := |inp.textEmbed|;
    NormalizeSlices(k, inp.imageEmbed, n);
    NormalizeSlices(k, inp'.imageEmbed, n);
    var v, v' := ClipViewsOf(k, inp, rank, worldSize, peers), ClipViewsOf(k, inp', rank, worldSize, peers');
    assert v'.image2 == v.image2 && v'.textAll == v.textAll;
  }

  // ---------------------------------------------------------------------
  // The module with its cache
  // ---------------------------------------------------------------------

  class AclipLoss {
    var labels: Option<seq<int>>
    var lastLocalBatchSize: Option<nat>
    const simclrLoss: SimclrLoss
    // The rank the cached labels were built with.
    ghost var cachedRank: int

    /** The cache is empty, or holds the labels of its last batch size. */
    ghost predicate Valid()
      reads this, simclrLoss
    {
      && simclrLoss.Valid()
      && match lastLocalBatchSize
         case None => labels == None
         case Some(n) => labels == Some(LabelVector(n, cachedRank))
    }

    constructor (temperature: real := 0.1)
      requires temperature != 0.0
      ensures Valid() && fresh(simclrLoss)
      ensures labels == None && lastLocalBatchSize == None
      ensures simclrLoss.tau == temperature && simclrLoss.lastLocalBatchSize == None
    {
      labels := None;
      lastLocalBatchSize := None;
      simclrLoss := new SimclrLoss(temperature);
    }

    /**
     * ACLIPLoss.forward. The SimCLR module runs first on the two halves of
     * image_ssl_embed. Then the labels are rebuilt exactly when N differs
     * from the last N, and reused unchanged otherwise. The record holds the
     * six metrics over those labels.
     */
    method Forward(kernels: Kernels, inp: AclipInputs, rank: int, worldSize: nat, peers: AclipPeers)
      returns (out: Record)
      requires Valid()
      requires InputsFit(inp, rank, worldSize, peers)
      requires simclrLoss.lastLocalBatchSize == Some(|inp.textEmbed|) ==> simclrLoss.cachedWorldSize == worldSize
      modifies this, simclrLoss
      ensures Valid()
      ensures lastLocalBatchSize == Some(|inp.textEmbed|)
      ensures old(lastLocalBatchSize) == Some(|inp.textEmbed|) ==>
                labels == old(labels) && cachedRank == old(cachedRank)
      ensures old(lastLocalBatchSize) != Some(|inp.textEmbed|) ==>
                labels == Some(LabelVector(|inp.textEmbed|, rank)) && cachedRank == rank
      ensures labels.Some? && |labels.value| == |inp.textEmbed|
      ensures simclrLoss.lastLocalBatchSize == Some(|inp.textEmbed|) && simclrLoss.cachedWorldSize == worldSize
      ensures old(simclrLoss.lastLocalBatchSize) == Some(|inp.textEmbed|) ==>
                simclrLoss.labels == old(simclrLoss.labels) && simclrLoss.masks == old(simclrLoss.masks)
      ensures old(simclrLoss.lastLocalBatchSize) != Some(|inp.textEmbed|) ==>
                && simclrLoss.labels == Some(LabelVector(|inp.textEmbed|, rank))
                && simclrLoss.masks == Some(RankMask(|inp.textEmbed|, rank, worldSize))
      ensures simclrLoss.labels.Some? && simclrLoss.masks.Some?
      ensures |simclrLoss.labels.value| == |inp.textEmbed|
      ensures IsMatrix(simclrLoss.masks.value, |inp.textEmbed|, |inp.textEmbed| * worldSize)
      ensures var n := |inp.textEmbed|;
        var ssl := SimclrOutputs(kernels, simclrLoss.tau, simclrLoss.labels.value, simclrLoss.masks.value,
                                 SliceTo(inp.imageSslEmbed, n), SliceFrom(inp.imageSslEmbed, n),
                                 rank, worldSize, peers.ssl1, peers.ssl2);
        out == AclipOutputs(kernels, inp, labels.value, rank, worldSize, peers, ssl.entries["ssl_loss"])
    {
      var bs := |inp.textEmbed|;
      var sslOut := simclrLoss.Forward(kernels, SliceTo(inp.imageSslEmbed, bs), SliceFrom(inp.imageSslEmbed, bs),
                                       rank, worldSize, peers.ssl1, peers.ssl2);
      var localBatchSize := |inp.textEmbed|;
      if Some(localBatchSize) != lastLocalBatchSize {
        labels := Some(LabelVector(localBatchSize, rank));
        lastLocalBatchSize := Some(localBatchSize);
        cachedRank := rank;
      }
      out := AclipOutputs(kernels, inp, labels.value, rank, worldSize, peers, sslOut.entries["ssl_loss"]);
    }
  }
}
