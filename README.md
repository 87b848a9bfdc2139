# A-CLIP losses: a Dafny model

This project models the two loss modules of A-CLIP's `losses.py` and the two
module-level helpers beside them.

- **`SIMCLRLoss`** is the SimCLR contrastive loss between two augmented views
  of one local batch.
  - Each view is L2-normalized and gathered across workers.
  - Sample i of view a is classified over `cat([ab, aa - mask])`.
    `ab` holds its similarities with the gathered rows of view b. `aa` holds
    its similarities with the gathered rows of view a.
  - The target label is the sample's own global index `n*rank + i`. That
    index points into the `ab` block.
  - The mask is `one_hot(labels, n*world_size) * 1e9`. It hits the same
    global index in the `aa` block, which removes the sample's similarity
    with itself.
  - Labels and mask are cached, and rebuilt only when the local batch size
    changes.
- **`ACLIPLoss`** combines four terms:
  - the SimCLR loss on the two halves of `image_ssl_embed`;
  - a BYOL-style consistency term between the online features of both views
    and the momentum features, tiled to cover both views;
  - two image/text contrastive terms, one per image view.

  The result is `0.5*contra_1 + 0.5*contra_2 + simclr + 2*byol`.
  `clip_acc` is the accuracy of the view-2 image logits. The image/text
  labels are cached by the same rule as in SimCLR.
- **`get_metric_names`** returns the six metric names. They are exactly the
  keys of the combined loss's output.
- **`cal_simsiam_loss`** is the negative cosine similarity, in an "original"
  and a "simplified" version. Any other version raises an error.

## How the model is built

Modules:
- `Tensors` (`tensors.dfy`): rows and matrices of `real` and the exact tensor
  operations the code uses: normalization given a norm, `q @ k.t()`,
  elementwise scaling, division and subtraction, column concatenation,
  Python slicing, `torch.cat` of a tensor with itself, the mean, and the
  layout of an all-gather.
- `Labels` (`labels.dfy`): the label vector, the one-hot mask and accuracy.
- `Simclr` (`simclr.dfy`): `SIMCLRLoss`.
- `Aclip` (`aclip.dfy`): `ACLIPLoss`, `get_metric_names` and `cal_simsiam_loss`.

Modelling choices:
- **Numerical kernels are parameters.** The Euclidean norm, cross-entropy,
  argmax and cosine similarity enter as a `Kernels` value of function type.
  Every statement proved holds whatever those kernels compute.
- **The distributed layer is parameters too.** Rank and world size are
  inputs. What the other workers contribute to each all-gather is passed in
  as `peers`. The gathered tensor is the rank-ordered concatenation of the
  shards, with this worker's own local tensor in its slot.
- **The modules are classes.** The two `nn.Module`s are Dafny classes whose
  fields are the cache (`labels`, `masks`, `last_local_batch_size`). Python's
  `None` is `Option.None`.
- **`Forward` is specified by functions.** Each `Forward` method states its
  whole new cache state, and states its output as a pure function
  (`SimclrOutputs`, `AclipOutputs`) of the inputs and the cache.
- **Output dicts are records.** A returned dict is a `Record` of its keys, in
  insertion order, and a map from key to value.

## Model

| member | source | states |
|---|---|---|
| Tensors.Normalize | losses.py:145-146 | F.normalize of one row keeps its width |
| Tensors.NormalizeRows | losses.py:70-71 | normalizing row by row keeps the tensor's shape |
| Tensors.MatMulT | losses.py:160 | `q @ k.t()` has one row per query and one column per key |
| Tensors.CatColumns | losses.py:167 | `torch.cat(dim=1)` keeps the row count, and each row's width is the sum of the two widths |
| Tensors.DivBy | losses.py:160-165 | `m / tau`, entry by entry, for a non-zero divisor; the shape is kept |
| Tensors.Sub | losses.py:161-163 | `logits - masks` on two tensors of one shape; the shape is kept |
| Tensors.Scale | losses.py:83-84 | `logit_scale * m`, entry by entry; the shape is kept |
| Tensors.SliceTo | losses.py:48 | Python `s[:k]`: min(k, len s) rows, the first rows of s |
| Tensors.SliceFrom | losses.py:49 | Python `s[k:]`: len s - k rows (none when k is past the end), row i being s[k+i] |
| Tensors.Tile | losses.py:59 | `torch.cat([e, e], dim=0)` has twice as many rows as e |
| Tensors.RowDots | losses.py:22 | `(p * z).sum(dim=1)`: one dot product per pair of corresponding rows |
| Tensors.Mean | losses.py:22 | `tensor.mean()` of a non-empty vector, its sum over its length; no contract of its own |
| Tensors.Gathered | losses.py:150 | all-gather of an n x d local tensor over `world_size` workers is (n*world_size) x d |
| Tensors.AllGatherShape | losses.py:150 | concatenating k shards of n x d gives an (n*k) x d tensor |
| Tensors.AllGatherBlock | losses.py:150 | row n*r + i of the gathered tensor is row i of worker r's shard |
| Tensors.GatheredOwnBlock | losses.py:150 | row n*rank + i of the gathered tensor is this worker's own local row i |
| Tensors.SliceSplit | losses.py:48-49 | `s[:k] + s[k:] == s` for every k; `s[:k]` has min(k, len s) rows |
| Tensors.SplitHalves | losses.py:73-74 | splitting 2N rows at N gives two N-row views: the top half and the bottom half |
| Tensors.TileRows | losses.py:59 | `cat([e, e])` has 2N rows, and rows i and i+N are both row i of e |
| Tensors.NormalizeSlices | losses.py:70-74 | normalizing and then splitting at N equals splitting and then normalizing each half |
| Labels.LabelVector | losses.py:153-155 | `local_batch_size * rank + torch.arange(local_batch_size)` has one label per local sample; its entries are stated by LabelsAreOwnBlock |
| Labels.LabelsAreOwnBlock | losses.py:153-155 | the labels have length n, label i is n*rank + i, and they are exactly the indices in [n*rank, n*rank+n) |
| Labels.SingleWorkerLabels | losses.py:153-155 | with rank 0 the labels are 0, 1, ..., n-1 |
| Labels.LabelsInRange | losses.py:153-156 | for 0 <= rank < world_size, every label indexes the gathered batch of n*world_size rows |
| Labels.OneHotMask | losses.py:157 | `one_hot(labels, width) * 1e9` has one row per label and `width` columns, for labels in [0, width) |
| Labels.OneHotRowCount | losses.py:157 | a one-hot row has exactly one non-zero entry when its class is in range, and none otherwise |
| Labels.RankMask | losses.py:156-157 | the mask of rank `rank` is n x (n*world_size) |
| Labels.MaskAt | losses.py:157 | mask entry (i, j) is 1e9 at j = n*rank + i and 0 elsewhere |
| Labels.MaskPlacement | losses.py:157 | a mask entry is 1e9 exactly at row i's own global index and 0 otherwise; each row has exactly one non-zero entry |
| Labels.Argmaxes | losses.py:173 | argmax over the last dimension gives one prediction per row |
| Labels.CountMatches | losses.py:174 | the number of matching predictions is at most the batch size |
| Labels.CountMatchesAll | losses.py:174 | the count equals the batch size exactly when every prediction matches its label |
| Labels.CountMatchesNone | losses.py:174 | the count is zero exactly when no prediction matches its label |
| Labels.Percentage | losses.py:175 | 100*c/n lies in [0, 100]; it is 100 exactly when c = n and 0 exactly when c = 0 |
| Labels.Accuracy | losses.py:172-175 | accuracy lies in [0, 100]; it is 100 exactly when all predictions are right and 0 exactly when none is |
| Simclr.ViewLogits | losses.py:160-167 | `cat([q@kOther.t()/tau, q@kSame.t()/tau - mask])` is n x (2 * gathered rows) |
| Simclr.SimclrLogits | losses.py:145-167 | both concatenated logit matrices are n x (2*n*world_size) |
| Simclr.ViewLogitsAt | losses.py:160-167 | entry (i, j) is the cross-view similarity over tau; entry (i, w+j) is the same-view similarity over tau minus mask (i, j) |
| Simclr.SimclrOutputs | losses.py:167-177 | keys "loss", "ssl_loss", "ssl_acc" in order; loss == ssl_loss; ssl_acc in [0, 100] |
| Simclr.TargetInCrossBlock | losses.py:153-167 | sample i's target is a column of the cross-view block, holding the similarity of its two views over tau |
| Simclr.SelfSimilarityMasked | losses.py:157-167 | at the target's column in the same-view block, the logit is the sample's self-similarity over tau minus 1e9 |
| Simclr.OtherColumnsUnmasked | losses.py:157-161 | every other column of the same-view block is the unmasked similarity over tau |
| Simclr.LossSymmetric | losses.py:167-169 | swapping the two views (and their gathers) leaves the loss unchanged |
| Simclr.ViewBLogitsAreSwapped | losses.py:162-168 | view b's logits `cat([ba, bb - masks])` are view a's logits of the call with the views and their gathers exchanged |
| Simclr.ViewBTargetAndMask | losses.py:157-168 | in view b's logits, the target holds the similarity of the sample's two views over tau, and the same index of the `bb` block its self-similarity over tau minus 1e9 |
| Simclr.SimclrLoss.constructor | losses.py:134-139 | a new module holds the temperature and an empty cache |
| Simclr.SimclrLoss.Forward | losses.py:141-177 | on a new batch size, labels and mask are rebuilt for this rank and world size; on the same size they are kept unchanged; the output is SimclrOutputs over the cache |
| Aclip.GetMetricNames | losses.py:10-14 | returns exactly "loss", "simclr_loss", "im_byol_loss", "contra_loss_1", "contra_loss_2", "clip_acc" |
| Aclip.MetricNamesDistinct | losses.py:10-14 | the six names are distinct, and their set is the set of keys the combined loss returns |
| Aclip.SimsiamLoss | losses.py:17-29 | fails exactly when version is neither "original" nor "simplified"; "original" is minus the mean dot product of the normalized rows |
| Aclip.SimsiamVersionsAgree | losses.py:17-27 | the two versions give the same loss whenever the cosine-similarity kernel is the dot product of normalized rows |
| Aclip.DotMinusExpand | losses.py:52-55 | the squared length of x - y is x.x - 2 x.y + y.y |
| Aclip.ByolTermIsSquaredDistance | losses.py:52-55 | for unit rows, `2 - 2*(x*y).sum()` is the squared Euclidean distance between them |
| Aclip.ByolTargetsTiled | losses.py:57-60 | rows i and i+N of the online features are both compared with the normalized momentum feature of sample i |
| Aclip.ByolTerm | losses.py:55 | the per-row term of loss_fn, `2 - 2*(x*y).sum()`, for two rows of one width; a definition with no contract of its own, whose meaning is ByolTermIsSquaredDistance |
| Aclip.ByolLoss | losses.py:52-60 | `loss_fn(byol_feats, cat([byol_feats_e, byol_feats_e])).mean()`, over normalized rows; its properties are ByolTargetsTiled and ByolLossIsMeanSquaredDistance |
| Aclip.ByolLossIsMeanSquaredDistance | losses.py:52-60 | when every normalized row has unit length, im_byol_loss is the mean squared distance between each online feature and its tiled momentum target |
| Aclip.CombinedLossSymmetric | losses.py:100-105 | the weighting gives the same loss when the two contrastive terms are exchanged |
| Aclip.CombinedLoss | losses.py:100-105 | the weighting `0.5*contra_1 + 0.5*contra_2 + simclr + 2*byol`; its symmetry is CombinedLossSymmetric |
| Aclip.ScaledLogits | losses.py:83-92 | `logit_scale * q @ k_all.t()` has one row per local query and one column per gathered key |
| Aclip.ContraLoss | losses.py:86-97 | one contrastive term: the mean of the image-to-text and text-to-image cross-entropies over the same labels |
| Aclip.ClipViewsOf | losses.py:70-80 | the normalized halves and the normalized text are n x d, and each gathered tensor is the all-gather of its local block |
| Aclip.TargetIsMatchedPair | losses.py:62-97 | against gathered keys, the logit of query i at its label is the scaled similarity of query i and this worker's own key i |
| Aclip.ClipTermsOf | losses.py:91-111 | clip_acc, taken from the view-2 image logits, lies in [0, 100] |
| Aclip.ClipTermsSwap | losses.py:73-97 | exchanging the two image views exchanges contra_loss_1 and contra_loss_2 |
| Aclip.ViewSwapSymmetric | losses.py:73-105 | exchanging the image views exchanges contra_loss_1 and contra_loss_2 and leaves "loss" unchanged |
| Aclip.ClipAccuracyFromViewTwo | losses.py:91-111 | clip_acc does not depend on view 1 of the image embeddings |
| Aclip.AclipOutputs | losses.py:100-120 | keys are the metric names in order; loss == 0.5*contra_1 + 0.5*contra_2 + simclr_loss + 2*im_byol_loss; simclr_loss is the SimCLR loss; clip_acc in [0, 100] |
| Aclip.AclipLoss.constructor | losses.py:33-37 | a new module has an empty label cache and a fresh SimCLR module with the same temperature |
| Aclip.AclipLoss.Forward | losses.py:39-120 | SimCLR runs on `image_ssl_embed[:bs]` and `[bs:]`, rebuilding its labels and mask for this rank and world size exactly when N changes; the image/text labels are rebuilt exactly when N changes and kept otherwise; the output is AclipOutputs with SimCLR's ssl_loss |

## Left out

- Floating point. Arithmetic is exact over `real`. The Euclidean norm,
  `F.cross_entropy`, `torch.argmax` with its tie-breaking and
  `F.cosine_similarity` are uninterpreted kernels.
  - No property depends on their values: for example, that cross-entropy is
    non-negative or that the loss is finite.
- Autograd. `detach()`, `torch.no_grad()` and the gradient flow of
  `all_gather_batch_with_grad` are not modelled, because only forward values
  are modelled.
- The distributed layer. `utils.get_rank()`, `utils.get_world_size()` and the
  collective all-gather are parameters: rank, world size, and what the other
  workers contribute.
  - The lock-step calling discipline across workers is not modelled.
- Error paths. An empty batch (N = 0), shape mismatches between the paired
  tensors, and a temperature of 0 are excluded by preconditions. In torch
  they give NaN or shape errors that the code does not handle.
  - `one_hot` raises for a label outside [0, width). The preconditions keep
    every label in range.
- Simclr.SimclrLoss.Forward: requires, on a call that reuses the cache (same
  batch size as the last call), that the world size is the one the cached
  mask was built with.
  - The source would then subtract a mask of width n*old_world_size from
    logits of width n*world_size. Torch raises for that, except when one
    side has width 1 and broadcasts; the model does not reproduce that
    broadcast.
  - A training process has a fixed world size, so this case does not arise.
- Aclip.AclipLoss.Forward: requires, on a call whose N equals its SimCLR
  module's cached batch size, that the world size is the one that module's
  cached mask was built with. The reason is the one given for
  Simclr.SimclrLoss.Forward, since the call passes through to it.
- Aclip.SimsiamLoss: states the "simplified" version only through
  `SimsiamVersionsAgree`.
  - F.cosine_similarity guards small norms differently from F.normalize, so
    the two versions agree only up to that guard and to rounding.
- Aclip.CombinedLoss, Aclip.ContraLoss, Aclip.ByolTerm and Tensors.Mean
  carry no contract of their own. They define the source's expressions, and the lemmas and
  records above state what follows from them.
- Aclip.ByolLoss carries no contract of its own. Its properties are
  `ByolTargetsTiled` and `ByolLossIsMeanSquaredDistance`. The latter assumes
  the norm kernel gives unit-length normalized rows, which the model does
  not derive because the norm is a kernel.
  - A bound such as "the loss lies in [0, 4]" needs the Cauchy-Schwarz
    inequality, which is not proved.
