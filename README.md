# Multi-label sigmoid cross-entropy loss: a Dafny model

This project models the forward-pass bookkeeping of mini-caffe's
`MultiLabelSigmoidCrossEntropyLossLayer` and of the `LossLayer` it builds on.
The layer scores a batch of per-attribute predictions against binary attribute
labels, weighing each attribute's positive and negative examples by weights
derived from that attribute's prior positive ratio. It then divides the summed
loss by a normalizer chosen by the `LossParameter.NormalizationMode`.

Files and modules:

- `caffe_base.dfy`, module `CaffeBase`, holds the shared values:
  - the parameter messages, as datatypes with `Option` fields (`Present` means `has_x()` is true);
  - the `NormalizationMode` enumeration, with `Unrecognized(code)` for a value outside the four named ones;
  - the error kinds and the `Outcome` and `Result` types;
  - read-only input tensors (shape plus row-major data) and the output `Blob`, a class;
  - `Count` (Blob::count), `Resize` (std::vector::resize) and `TruncateToInt` (`static_cast<int>` of a float).
- `loss_layer.dfy`, module `LossLayers`, models `src/layers/loss_layer.cpp`:
  - the normalizer policy `GetNormalizer` and its properties;
  - the class `LossLayer`, which owns the layer parameter, with `LayerSetUp` (the default loss weight) and `Reshape` (the first-dimension check and the scalar output shape).
- `multi_label_sigmoid_cross_entropy_loss.dfy`, module `MultiLabelSigmoidLoss`, models `src/layers/multi_label_sigmoid_cross_entroy_loss.cpp`:
  - specification functions for mode selection, the weight table, the per-element contribution, the summed loss and the forward result, with lemmas about them;
  - the class `MultiLabelSigmoidCrossEntropyLossLayer`, whose fields are those declared in the header at lines 71-81. Its methods are `LayerSetUp`, `Reshape`, `get_normalizer` (here `GetNormalizer`) and `Forward_cpu` (here `Forward`, with its loop in `AccumulateLoss`).

Modelling choices:

- C++ inheritance becomes composition. The layer owns a `LossLayer` in its `base` field, and its `LayerSetUp` and `Reshape` call the base ones first, as the source does.
- `exp`, `log` and the internal sigmoid layer are not modelled; they are inputs:
  - `exp` is a `real -> real` parameter of `LayerSetUp`;
  - `log` is a `real -> real` parameter of `Forward`;
  - the sigmoid layer's output is a sequence argument of `Forward`, as long as the prediction tensor.
- Floating-point numbers are `real`. Integers are unbounded `int`.
- Fatal `CHECK_EQ` and `LOG(FATAL)` aborts become `Fail`/`Err` results. Fields the source assigns before the failing check keep their new values in the model, in the source's order:
  - in `LayerSetUp`: the loss weights, `normalization_`, `MLSCELPara_` and `has_positive_ratio_`;
  - in `Reshape`: `outer_num_` and `inner_num_` are set before the element-count check.
- `positive_ratio_` and `attribute_weights_` are resized as `std::vector::resize` does: earlier entries are kept. The "(1, 1) for every attribute" default therefore holds for a layer set up for the first time, when both vectors are still empty (`SetUpFreshLayer`). A second `LayerSetUp` without ratios keeps the earlier weights.
- `inner_num_` is `count(1)`: the product of the axes after the first, which is meaningful for an empty batch too.

## Model

| member | source | states |
|---|---|---|
| CaffeBase.Resize | src/layers/multi_label_sigmoid_cross_entroy_loss.cpp:49-50 | the resized vector has exactly `n` entries: the old ones where they exist, the fill value after them |
| CaffeBase.TruncatesToOne | src/layers/multi_label_sigmoid_cross_entroy_loss.cpp:119 | a target truncates to 1 if and only if it lies in [1, 2) |
| CaffeBase.TruncatesToZero | src/layers/multi_label_sigmoid_cross_entroy_loss.cpp:119 | a target truncates to 0 if and only if it lies in (-1, 1) |
| LossLayers.ClampToOne | src/layers/loss_layer.cpp:49-51 | `max(1, x)` is at least 1 and at least x, and is one of the two |
| LossLayers.GetNormalizer | src/layers/loss_layer.cpp:24-52 | succeeds exactly for the four recognised modes, then always returns at least 1; an unrecognised mode is the fatal error |
| LossLayers.NoneNormalizerIsOne | src/layers/loss_layer.cpp:42-44 | NONE gives exactly 1, whatever the counts |
| LossLayers.BatchSizeNormalizerIgnoresCounts | src/layers/loss_layer.cpp:39-41 | BATCH_SIZE gives max(1, outer_num) and does not depend on inner_num or valid_count |
| LossLayers.FullNormalizerIsElementCount | src/layers/loss_layer.cpp:29-31 | FULL gives max(1, outer_num * inner_num) |
| LossLayers.ValidWithoutCountIsFull | src/layers/loss_layer.cpp:32-34 | VALID with valid_count == -1 gives the same result as FULL |
| LossLayers.ValidWithCountIsClampedCount | src/layers/loss_layer.cpp:35-51 | VALID with any other count gives max(1, valid_count); every count below 1, negative ones included, gives 1 |
| LossLayers.WithDefaultLossWeight | src/layers/loss_layer.cpp:11-13 | the result holds at least one weight; configured weights are kept as they are; when none is configured the result is the single weight 1 |
| LossLayers.DefaultLossWeightIsIdempotent | src/layers/loss_layer.cpp:11-13 | applying the default twice is the same as applying it once |
| LossLayers.LossLayer.LayerSetUp | src/layers/loss_layer.cpp:8-14 | the loss weights become the defaulted list; the rest of the layer parameter is unchanged |
| LossLayers.LossLayer.Reshape | src/layers/loss_layer.cpp:16-22 | fails if and only if the first dimensions differ, leaving the output untouched; otherwise the output has zero axes and one element |
| MultiLabelSigmoidLoss.SelectNormalization | src/layers/multi_label_sigmoid_cross_entroy_loss.cpp:25-33 | an explicit mode is used as given; otherwise the result is VALID or BATCH_SIZE, and VALID exactly when the legacy flag is present and true |
| MultiLabelSigmoidLoss.ExplicitModeOverridesLegacyFlag | src/layers/multi_label_sigmoid_cross_entroy_loss.cpp:25-28 | when an explicit mode is present, the legacy flag has no influence |
| MultiLabelSigmoidLoss.IgnoreLabelIsInert | src/layers/multi_label_sigmoid_cross_entroy_loss.cpp:18-24 | the deprecated ignore label does not influence the chosen mode |
| MultiLabelSigmoidLoss.RatioWeights | src/layers/multi_label_sigmoid_cross_entroy_loss.cpp:51-58 | the table built from the ratios has one entry per ratio |
| MultiLabelSigmoidLoss.RatioWeightsEntryIsLocal | src/layers/multi_label_sigmoid_cross_entroy_loss.cpp:51-58 | entry k is (exp((1 - r_k)/eps^2), exp(r_k/eps^2)) and depends only on ratio k and epsilon |
| MultiLabelSigmoidLoss.RareClassWeighsMore | src/layers/multi_label_sigmoid_cross_entroy_loss.cpp:54-55 | for an increasing exp, a ratio below 1/2 weighs positives more, one above 1/2 weighs negatives more, and 1/2 weighs both equally |
| MultiLabelSigmoidLoss.ContributionByTarget | src/layers/multi_label_sigmoid_cross_entroy_loss.cpp:119-131 | a target in [1, 2) adds the positive-weight term; one in (-1, 1) adds the negative-weight term; any other target adds nothing |
| MultiLabelSigmoidLoss.PrefixLossStep | src/layers/multi_label_sigmoid_cross_entroy_loss.cpp:126-131 | element k changes the running loss by exactly its weighted term, taken from weight-table entry k mod A, or leaves it unchanged |
| MultiLabelSigmoidLoss.AllIgnoredLossIsZero | src/layers/multi_label_sigmoid_cross_entroy_loss.cpp:128-131 | when every target is outside {0, 1} after truncation, the loss is 0 |
| MultiLabelSigmoidLoss.IgnoredTargetsAreInterchangeable | src/layers/multi_label_sigmoid_cross_entroy_loss.cpp:118-133 | target lists that differ only where both targets are ignored give the same loss |
| MultiLabelSigmoidLoss.UnitWeightsGiveUnweightedLoss | src/layers/multi_label_sigmoid_cross_entroy_loss.cpp:128-131 | with every weight (1, 1), the loss is plain sigmoid cross-entropy |
| MultiLabelSigmoidLoss.ForwardResult | src/layers/multi_label_sigmoid_cross_entroy_loss.cpp:134-135 | fails exactly for an unrecognised mode; otherwise the normalizer is GetNormalizer's value for valid_count = element count, it is at least 1, and the output is the summed loss divided by the normalizer |
| MultiLabelSigmoidLoss.ForwardResultWithNormalizer | src/layers/multi_label_sigmoid_cross_entroy_loss.cpp:134-135 | whenever GetNormalizer yields n and the loop's sum is total, the forward result is n and total / n; with n = 1 it is the sum itself |
| MultiLabelSigmoidLoss.ValidBehavesAsFull | src/layers/multi_label_sigmoid_cross_entroy_loss.cpp:132-134 | since every element counts as valid, VALID gives the same normalizer and output as FULL once outer * inner equals the element count |
| MultiLabelSigmoidLoss.BatchSizeScenario | src/layers/multi_label_sigmoid_cross_entroy_loss.cpp:107-136 | example: two attributes, no ratios, BATCH_SIZE, targets [1,0,1,0]; the normalizer is 2 and the output is the summed negative log-likelihood halved |
| MultiLabelSigmoidLoss.NoneScenario | src/layers/multi_label_sigmoid_cross_entroy_loss.cpp:107-136 | the same inputs under NONE: the normalizer is 1 and the output is the raw sum |
| MultiLabelSigmoidLoss.OutOfRangeTargetScenario | src/layers/multi_label_sigmoid_cross_entroy_loss.cpp:116-134 | a target of -1 adds no term but still counts: under VALID, targets [1, -1] give divisor 2 |
| MultiLabelSigmoidLoss.MultiLabelSigmoidCrossEntropyLossLayer.constructor | src/layers/multi_label_sigmoid_cross_entroy_loss.hpp:30-33 | the base loss layer is fresh and holds the parameter; the ratio list and weight table start empty |
| MultiLabelSigmoidLoss.MultiLabelSigmoidCrossEntropyLossLayer.LayerSetUp | src/layers/multi_label_sigmoid_cross_entroy_loss.cpp:9-60 | defaults the loss weight, selects the mode and records has_positive_ratio_ and the parameter. It fails exactly when ratios are given and their count differs from shape(1); the size, epsilon and table are then untouched. On success the table has one entry per attribute: the ratio-derived pairs, or the resized default |
| MultiLabelSigmoidLoss.MultiLabelSigmoidCrossEntropyLossLayer.FillWeightTable | src/layers/multi_label_sigmoid_cross_entroy_loss.cpp:51-59 | afterwards positive_ratio_ equals the configured ratios and attribute_weights_ is the ratio-derived table |
| MultiLabelSigmoidLoss.MultiLabelSigmoidCrossEntropyLossLayer.Reshape | src/layers/multi_label_sigmoid_cross_entroy_loss.cpp:62-70 | a first-dimension mismatch fails with nothing changed; otherwise it records outer_num_ = shape(0) and inner_num_ = count(1), both non-negative, so outer * inner == count. It then fails if and only if the element counts differ. The setup fields are unchanged |
| MultiLabelSigmoidLoss.MultiLabelSigmoidCrossEntropyLossLayer.GetNormalizer | src/layers/multi_label_sigmoid_cross_entroy_loss.cpp:74-105 | the layer's own copy of the policy agrees with LossLayer::GetNormalizer on its outer and inner sizes, for every mode and count |
| MultiLabelSigmoidLoss.MultiLabelSigmoidCrossEntropyLossLayer.AccumulateLoss | src/layers/multi_label_sigmoid_cross_entroy_loss.cpp:114-133 | the loop's valid_count equals the element count whatever the targets, and its loss equals the specified weighted sum; every weight-table access `attribute_weights_[i % attributes_number_]` is proved in bounds from the layer invariant |
| MultiLabelSigmoidLoss.MultiLabelSigmoidCrossEntropyLossLayer.Forward | src/layers/multi_label_sigmoid_cross_entroy_loss.cpp:107-136 | normalizer_ and the output's single element become ForwardResult's normalizer and loss / normalizer; an unrecognised mode fails and changes nothing |
| MultiLabelSigmoidLoss.SetUpFreshLayer | src/layers/multi_label_sigmoid_cross_entroy_loss.cpp:46-50 | a newly built layer set up without ratios succeeds, has shape(1) attributes, and weighs every attribute (1, 1) with ratio 1 |

## Left out

- The sigmoid sub-layer (`sigmoid_layer_`, `sigmoid_output_`, `sigmoid_bottom_vec_`, `sigmoid_top_vec_`, and its SetUp, Reshape and Forward calls). These are calls into a layer outside this model. Its output enters `Forward` as a sequence argument.
- The values of `exp`, `log` and the sigmoid are floating-point numerics. They are parameters, and no claim is made about actual loss values. The commented-out "stable" formula is dead code.
- Floating-point rounding and the order of accumulation: the model sums over `real`.
- Integer overflow of `outer_num * inner_num` and of element counts: all integers are unbounded. `static_cast<int>` of a target too large for `int` (undefined in C++) is modelled as plain truncation.
- Blob storage (`cpu_data`, `mutable_cpu_data`, capacity, shared pointers): inputs are read-only shape-plus-data values, and the output is a `Blob` with a shape and a data sequence.
- Blob::shape(i) and Blob::count checks are not part of this model. Instead, `LayerSetUp` requires an input with at least two axes and `Reshape` requires inputs with at least one.
- `MultiLabelSigmoidLoss.MultiLabelSigmoidCrossEntropyLossLayer.LayerSetUp`: requires epsilon != 0 when ratios are given and their count is accepted, the only path on which the source divides by epsilon squared. In floating point, epsilon = 0 there gives infinite, zero or NaN weights (NaN for a ratio of exactly 0 or 1), which real arithmetic cannot represent. With a mismatched count the model reaches the configuration error for any epsilon, as the source does.
- `MultiLabelSigmoidLoss.MultiLabelSigmoidCrossEntropyLossLayer.Forward`: requires the target and sigmoid output to have as many elements as the prediction, which is what `Reshape` checks. It also requires a positive attribute count when there are elements, since `i % 0` is undefined in C++.
- `LossLayers.LossLayer.Reshape`: says only that the scalar output has one element. After Blob::Reshape the value of that element is stale memory, not specified here.
- Logging (`LOG(INFO)`, `LOG(WARNING)`) is I/O only. The deprecated ignore label only triggers a warning; the model carries the field and nothing reads it (`IgnoreLabelIsInert`).
- Protobuf parsing, `LossParameter_NormalizationMode_Name`, layer registration and the GPU stubs are framework glue. Parameters are plain datatypes.
- C++ leaves the scalar fields uninitialised until setup. The model's constructor sets `attributesNumber` to 0, so that the layer invariant `Consistent()` (one ratio and one weight pair per attribute) holds before setup, with both vectors empty. No contract relies on the initial values of the other scalar fields.
- The backward pass is not implemented in these files.
