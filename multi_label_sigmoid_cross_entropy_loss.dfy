/** The multi-label sigmoid cross-entropy loss layer: per-attribute
    positive/negative weights derived at setup from a prior positive ratio,
    a weighted negative log-likelihood summed over every element, and the
    loss normalizer duplicated from LossLayer.

    The floating-point transcendental functions are parameters: `exp` at
    setup, `log` in the forward pass, and the output of the internal sigmoid
    layer is handed to the forward pass as a sequence. */
module MultiLabelSigmoidLoss {
  import opened CaffeBase
  import LossLayers

  // ---------------------------------------------------------------------
  // Setup-time configuration

  /** The normalization mode chosen at setup: the explicit `normalization`
      field, else the legacy `normalize` flag, else BATCH_SIZE. */
  function SelectNormalization(p: LossParameter): (m: NormalizationMode)
    ensures p.normalization.Present? ==> m == p.normalization.value
    ensures p.normalization.Absent? ==> m == Valid || m == BatchSize
    ensures p.normalization.Absent? ==> (m == Valid <==> p.normalize == Present(true))
  {
    if p.normalization.Present? then p.normalization.value
    else if p.normalize.Present? then (if p.normalize.value then Valid else BatchSize)
    else BatchSize
  }

  /** The legacy flag is consulted only when no explicit mode is given. */
  lemma ExplicitModeOverridesLegacyFlag(p: LossParameter, flag: Option<bool>)
    requires p.normalization.Present?
    ensures SelectNormalization(p.(normalize := flag)) == SelectNormalization(p)
  {
  }

  /** The deprecated ignore label has no effect on the chosen mode. */
  lemma IgnoreLabelIsInert(p: LossParameter, ignore: Option<int>)
    ensures SelectNormalization(p.(ignoreLabel := ignore)) == SelectNormalization(p)
  {
  }

  /** Setup succeeds exactly when no ratio is given or one per attribute is. */
  predicate RatioCountAccepted(ratios: seq<real>, attributes: int)
  {
    |ratios| == 0 || |ratios| == attributes
  }

  /** The (positive, negative) weight pair of one attribute with positive
      ratio `ratio`: exp((1 - ratio) / eps^2) and exp(ratio / eps^2). */
  function AttributeWeight(ratio: real, epsilon: real, exp: real -> real): (real, real)
    requires epsilon != 0.0
  {
    (exp((1.0 - ratio) / (epsilon * epsilon)), exp(ratio / (epsilon * epsilon)))
  }

  /** The weight table built from a full list of positive ratios. */
  function RatioWeights(ratios: seq<real>, epsilon: real, exp: real -> real): (t: seq<(real, real)>)
    requires epsilon != 0.0
    ensures |t| == |ratios|
  {
    seq(|ratios|, k requires 0 <= k < |ratios| => AttributeWeight(ratios[k], epsilon, exp))
  }

  /** Entry `k` of the table depends on the k-th ratio and epsilon alone. */
  lemma RatioWeightsEntryIsLocal(ratios: seq<real>, ratios': seq<real>, epsilon: real, exp: real -> real, k: int)
    requires epsilon != 0.0 && 0 <= k < |ratios| && 0 <= k < |ratios'| && ratios[k] == ratios'[k]
    ensures RatioWeights(ratios, epsilon, exp)[k] == RatioWeights(ratios', epsilon, exp)[k]
    ensures RatioWeights(ratios, epsilon, exp)[k].0 == exp((1.0 - ratios[k]) / (epsilon * epsilon))
    ensures RatioWeights(ratios, epsilon, exp)[k].1 == exp(ratios[k] / (epsilon * epsilon))
  {
  }

  /** With an increasing `exp`, an attribute whose positives are rarer than
      its negatives weighs positive examples more, and the other way round. */
  lemma RareClassWeighsMore(ratio: real, epsilon: real, exp: real -> real)
    requires epsilon != 0.0
    requires forall x: real, y: real :: x < y ==> exp(x) < exp(y)
    ensures ratio < 0.5 ==> AttributeWeight(ratio, epsilon, exp).0 > AttributeWeight(ratio, epsilon, exp).1
    ensures ratio > 0.5 ==> AttributeWeight(ratio, epsilon, exp).0 < AttributeWeight(ratio, epsilon, exp).1
    ensures ratio == 0.5 ==> AttributeWeight(ratio, epsilon, exp).0 == AttributeWeight(ratio, epsilon, exp).1
  {
  }

  // ---------------------------------------------------------------------
  // The forward accumulation

  /** What one element subtracts from the loss: its target is truncated to
      an integer; 1 takes the positive weight, 0 the negative weight, any
      other value nothing. */
  function Contribution(w: (real, real), target: real, prob: real, log: real -> real): real
  {
    var t := TruncateToInt(target);
    if t == 1 then w.0 * log(prob)
    else if t == 0 then w.1 * log(1.0 - prob)
    else 0.0
  }

  /** A target that neither truncates to 1 nor to 0 (for instance -1). */
  predicate Ignored(target: real)
  {
    target <= -1.0 || target >= 2.0
  }

  lemma ContributionByTarget(w: (real, real), target: real, prob: real, log: real -> real)
    ensures 1.0 <= target < 2.0 ==> Contribution(w, target, prob, log) == w.0 * log(prob)
    ensures -1.0 < target < 1.0 ==> Contribution(w, target, prob, log) == w.1 * log(1.0 - prob)
    ensures Ignored(target) ==> Contribution(w, target, prob, log) == 0.0
  {
    TruncatesToOne(target);
    TruncatesToZero(target);
  }

  /** The loss after the first `k` elements of the loop. */
  function PrefixLoss(weights: seq<(real, real)>, targets: seq<real>, probs: seq<real>, log: real -> real, k: nat): real
    requires k <= |targets| && k <= |probs| && (|weights| > 0 || k == 0)
  {
    if k == 0 then 0.0
    else PrefixLoss(weights, targets, probs, log, k - 1)
         - Contribution(weights[(k - 1) % |weights|], targets[k - 1], probs[k - 1], log)
  }

  /** The summed loss over every element. */
  function WeightedLoss(weights: seq<(real, real)>, targets: seq<real>, probs: seq<real>, log: real -> real): real
    requires |targets| == |probs| && (|weights| > 0 || |probs| == 0)
  {
    PrefixLoss(weights, targets, probs, log, |probs|)
  }

  /** Element `k` changes the loss by exactly its weighted term, or not at all. */
  lemma PrefixLossStep(weights: seq<(real, real)>, targets: seq<real>, probs: seq<real>, log: real -> real, k: nat)
    requires k < |targets| && k < |probs| && |weights| > 0
    ensures var w, t, p := weights[k % |weights|], targets[k], probs[k];
      var before, after := PrefixLoss(weights, targets, probs, log, k), PrefixLoss(weights, targets, probs, log, k + 1);
      (1.0 <= t < 2.0 ==> after == before - w.0 * log(p)) &&
      (-1.0 < t < 1.0 ==> after == before - w.1 * log(1.0 - p)) &&
      (Ignored(t) ==> after == before)
  {
    ContributionByTarget(weights[k % |weights|], targets[k], probs[k], log);
  }

  /** Targets outside {0, 1} contribute nothing: a batch of only such
      targets has zero loss. */
  lemma {:induction false} AllIgnoredLossIsZero(weights: seq<(real, real)>, targets: seq<real>, probs: seq<real>, log: real -> real, k: nat)
    requires k <= |targets| && k <= |probs| && (|weights| > 0 || k == 0)
    requires forall j :: 0 <= j < k ==> Ignored(targets[j])
    ensures PrefixLoss(weights, targets, probs, log, k) == 0.0
  {
    if k > 0 {
      AllIgnoredLossIsZero(weights, targets, probs, log, k - 1);
      ContributionByTarget(weights[(k - 1) % |weights|], targets[k - 1], probs[k - 1], log);
    }
  }

  /** Two target lists that differ only where both targets are ignored give
      the same loss. */
  lemma {:induction false} IgnoredTargetsAreInterchangeable(weights: seq<(real, real)>, targets: seq<real>, targets': seq<real>, probs: seq<real>, log: real -> real, k: nat)
    requires k <= |targets| && k <= |targets'| && k <= |probs| && (|weights| > 0 || k == 0)
    requires forall j :: 0 <= j < k ==> targets[j] == targets'[j] || (Ignored(targets[j]) && Ignored(targets'[j]))
    ensures PrefixLoss(weights, targets, probs, log, k) == PrefixLoss(weights, targets', probs, log, k)
  {
    if k > 0 {
      IgnoredTargetsAreInterchangeable(weights, targets, targets', probs, log, k - 1);
      ContributionByTarget(weights[(k - 1) % |weights|], targets[k - 1], probs[k - 1], log);
      ContributionByTarget(weights[(k - 1) % |weights|], targets'[k - 1], probs[k - 1], log);
    }
  }

  /** The plain (unweighted) sigmoid cross-entropy over the first `k`
      elements, as a reference. */
  function UnweightedLoss(targets: seq<real>, probs: seq<real>, log: real -> real, k: nat): real
    requires k <= |targets| && k <= |probs|
  {
    if k == 0 then 0.0
    else
      var t := TruncateToInt(targets[k - 1]);
      UnweightedLoss(targets, probs, log, k - 1)
      - (if t == 1 then log(probs[k - 1]) else if t == 0 then log(1.0 - probs[k - 1]) else 0.0)
  }

  /** With the default (1, 1) weights the layer computes plain sigmoid
      cross-entropy. */
  lemma {:induction false} UnitWeightsGiveUnweightedLoss(weights: seq<(real, real)>, targets: seq<real>, probs: seq<real>, log: real -> real, k: nat)
    requires k <= |targets| && k <= |probs| && (|weights| > 0 || k == 0)
    requires forall a :: 0 <= a < |weights| ==> weights[a] == (1.0, 1.0)
    ensures PrefixLoss(weights, targets, probs, log, k) == UnweightedLoss(targets, probs, log, k)
  {
    if k > 0 {
      UnitWeightsGiveUnweightedLoss(weights, targets, probs, log, k - 1);
      assert weights[(k - 1) % |weights|] == (1.0, 1.0);
    }
  }

  /** The state Forward_cpu leaves behind: the normalizer and the output
      loss, or the fatal error of an unknown mode. */
  function ForwardResult(mode: NormalizationMode, outerNum: int, innerNum: int,
                         weights: seq<(real, real)>, targets: seq<real>, probs: seq<real>,
                         log: real -> real): (r: Result<(real, real)>)
    requires |targets| == |probs| && (|weights| > 0 || |probs| == 0)
    ensures r.Ok? <==> !mode.Unrecognized?
    ensures r.Ok? ==> r.value.0 >= 1.0 && r.value.1 == WeightedLoss(weights, targets, probs, log) / r.value.0
    ensures r.Ok? ==> Ok(r.value.0) == LossLayers.GetNormalizer(mode, outerNum, innerNum, |probs|)
  {
    match LossLayers.GetNormalizer(mode, outerNum, innerNum, |probs|)
    case Err(e) => Err(e)
    case Ok(n) => Ok((n, WeightedLoss(weights, targets, probs, log) / n))
  }

  /** Given its normalizer and the summed loss, the forward result is that
      normalizer and the sum divided by it; a normalizer of one leaves the
      sum as it is. */
  lemma ForwardResultWithNormalizer(mode: NormalizationMode, outerNum: int, innerNum: int,
                                    weights: seq<(real, real)>, targets: seq<real>, probs: seq<real>,
                                    log: real -> real, n: real, total: real)
    requires |targets| == |probs| && (|weights| > 0 || |probs| == 0)
    requires LossLayers.GetNormalizer(mode, outerNum, innerNum, |probs|) == Ok(n)
    requires WeightedLoss(weights, targets, probs, log) == total
    ensures ForwardResult(mode, outerNum, innerNum, weights, targets, probs, log) == Ok((n, total / n))
    ensures n == 1.0 ==> ForwardResult(mode, outerNum, innerNum, weights, targets, probs, log) == Ok((1.0, total))
  {
    if n == 1.0 {
      assert total / n == total;
    }
  }

  /** Because every element counts as valid, VALID divides by the same
      number as FULL once Reshape has made outer * inner the element count. */
  lemma ValidBehavesAsFull(outerNum: int, innerNum: int, weights: seq<(real, real)>, targets: seq<real>, probs: seq<real>, log: real -> real)
    requires |targets| == |probs| && (|weights| > 0 || |probs| == 0)
    requires outerNum * innerNum == |probs|
    ensures ForwardResult(Valid, outerNum, innerNum, weights, targets, probs, log)
         == ForwardResult(Full, outerNum, innerNum, weights, targets, probs, log)
  {
  }

  /** Two attributes, no ratios, BATCH_SIZE, a batch of two with targets
      [[1, 0], [1, 0]]: the output is the summed log-likelihood over two. */
  lemma BatchSizeScenario(p: seq<real>, log: real -> real)
    requires |p| == 4
    ensures ForwardResult(BatchSize, 2, 2, Resize([], 2, (1.0, 1.0)), [1.0, 0.0, 1.0, 0.0], p, log)
         == Ok((2.0, -(log(p[0]) + log(1.0 - p[1]) + log(p[2]) + log(1.0 - p[3])) / 2.0))
  {
    var w := Resize([], 2, (1.0, 1.0));
    var t := [1.0, 0.0, 1.0, 0.0];
    assert w == [(1.0, 1.0), (1.0, 1.0)];
    PrefixLossStep(w, t, p, log, 0);
    PrefixLossStep(w, t, p, log, 1);
    PrefixLossStep(w, t, p, log, 2);
    PrefixLossStep(w, t, p, log, 3);
    ForwardResultWithNormalizer(BatchSize, 2, 2, w, t, p, log, 2.0,
                                -(log(p[0]) + log(1.0 - p[1]) + log(p[2]) + log(1.0 - p[3])));
  }

  /** The same inputs under NONE: the raw sum, divided by one. */
  lemma NoneScenario(p: seq<real>, log: real -> real)
    requires |p| == 4
    ensures ForwardResult(None, 2, 2, Resize([], 2, (1.0, 1.0)), [1.0, 0.0, 1.0, 0.0], p, log)
         == Ok((1.0, -(log(p[0]) + log(1.0 - p[1]) + log(p[2]) + log(1.0 - p[3]))))
  {
    var w := Resize([], 2, (1.0, 1.0));
    var t := [1.0, 0.0, 1.0, 0.0];
    assert w == [(1.0, 1.0), (1.0, 1.0)];
    PrefixLossStep(w, t, p, log, 0);
    PrefixLossStep(w, t, p, log, 1);
    PrefixLossStep(w, t, p, log, 2);
    PrefixLossStep(w, t, p, log, 3);
    ForwardResultWithNormalizer(None, 2, 2, w, t, p, log, 1.0,
                                -(log(p[0]) + log(1.0 - p[1]) + log(p[2]) + log(1.0 - p[3])));
  }

  /** A target of -1 adds no term, yet still counts towards VALID: with
      targets [1, -1] the VALID divisor is 2, not 1. */
  lemma OutOfRangeTargetScenario(p: seq<real>, log: real -> real)
    requires |p| == 2
    ensures ForwardResult(Valid, 1, 2, Resize([], 2, (1.0, 1.0)), [1.0, -1.0], p, log) == Ok((2.0, -log(p[0]) / 2.0))
  {
    var w := Resize([], 2, (1.0, 1.0));
    var t := [1.0, -1.0];
    assert w == [(1.0, 1.0), (1.0, 1.0)];
    PrefixLossStep(w, t, p, log, 0);
    PrefixLossStep(w, t, p, log, 1);
    ForwardResultWithNormalizer(Valid, 1, 2, w, t, p, log, 2.0, -log(p[0]));
  }

  // ---------------------------------------------------------------------
  // The layer

  class MultiLabelSigmoidCrossEntropyLossLayer {
    /** The LossLayer this layer is built on (it owns layer_param_). */
    const base: LossLayers.LossLayer

    var normalization: NormalizationMode
    var normalizer: real
    var outerNum: int
    var innerNum: int
    var mlscelParam: MultiLabelParameter
    var positiveRatio: seq<real>
    /** Per attribute: (weight of a positive label, weight of a negative label). */
    var attributeWeights: seq<(real, real)>
    var epsilon: real
    var attributesNumber: int
    var hasPositiveRatio: bool

    /** One ratio and one weight pair per attribute. */
    ghost predicate Consistent()
      reads this
    {
      attributesNumber >= 0 &&
      |positiveRatio| == attributesNumber &&
      |attributeWeights| == attributesNumber
    }

    constructor (param: LayerParameter)
      ensures fresh(base) && base.layerParam == param
      ensures positiveRatio == [] && attributeWeights == [] && attributesNumber == 0
      ensures Consistent()
    {
      base := new LossLayers.LossLayer(param);
      normalization := BatchSize;
      normalizer := 1.0;
      outerNum, innerNum := 0, 0;
      mlscelParam := param.multiLabelParam;
      positiveRatio, attributeWeights := [], [];
      epsilon := 0.0;
      attributesNumber := 0;
      hasPositiveRatio := false;
    }

    /** LayerSetUp: the default loss weight, the normalization mode, the
        ratio count check and the attribute weight table. */
    method LayerSetUp(bottom0: Tensor, exp: real -> real) returns (o: Outcome)
      requires Consistent() && bottom0.WellFormed() && |bottom0.shape| >= 2
      requires var m := base.layerParam.multiLabelParam;
        m.positiveRatio != [] && |m.positiveRatio| == bottom0.shape[1] ==> m.epsilon != 0.0
      modifies this, base
      ensures Consistent()
      ensures base.layerParam == old(base.layerParam).(lossWeight := LossLayers.WithDefaultLossWeight(old(base.layerParam.lossWeight)))
      ensures normalization == SelectNormalization(base.layerParam.lossParam)
      ensures mlscelParam == base.layerParam.multiLabelParam
      ensures hasPositiveRatio == (mlscelParam.positiveRatio != [])
      ensures o.Pass? <==> RatioCountAccepted(mlscelParam.positiveRatio, bottom0.shape[1])
      ensures o.Fail? ==> o.error == RatioCountMismatch(|mlscelParam.positiveRatio|, bottom0.shape[1])
      ensures o.Fail? ==> attributesNumber == old(attributesNumber) && epsilon == old(epsilon)
                          && positiveRatio == old(positiveRatio) && attributeWeights == old(attributeWeights)
      ensures o.Pass? ==> attributesNumber == bottom0.shape[1] && epsilon == mlscelParam.epsilon
      ensures o.Pass? && hasPositiveRatio ==>
                positiveRatio == mlscelParam.positiveRatio
                && attributeWeights == RatioWeights(mlscelParam.positiveRatio, epsilon, exp)
      ensures o.Pass? && !hasPositiveRatio ==>
                positiveRatio == Resize(old(positiveRatio), attributesNumber, 1.0)
                && attributeWeights == Resize(old(attributeWeights), attributesNumber, (1.0, 1.0))
      ensures outerNum == old(outerNum) && innerNum == old(innerNum) && normalizer == old(normalizer)
    {
      base.LayerSetUp();
      var lossParam := base.layerParam.lossParam;
      if lossParam.normalization.Present? {
        normalization := lossParam.normalization.value;
      } else if lossParam.normalize.Present? {
        normalization := if lossParam.normalize.value then Valid else BatchSize;
      } else {
        normalization := BatchSize;
      }

      mlscelParam := base.layerParam.multiLabelParam;
      var ratios := mlscelParam.positiveRatio;
      hasPositiveRatio := |ratios| != 0;
      if hasPositiveRatio && |ratios| != bottom0.shape[1] {
        return Fail(RatioCountMismatch(|ratios|, bottom0.shape[1]));
      }

      attributesNumber := bottom0.shape[1];
      epsilon := mlscelParam.epsilon;
      positiveRatio := Resize(positiveRatio, attributesNumber, 1.0);
      attributeWeights := Resize(attributeWeights, attributesNumber, (1.0, 1.0));
      if hasPositiveRatio {
        FillWeightTable(ratios, exp);
      }
      o := Pass;
    }

    /** The loop of LayerSetUp that copies the ratios and derives each
        attribute's weight pair from its ratio. */
    method FillWeightTable(ratios: seq<real>, exp: real -> real)
      requires |ratios| == attributesNumber == |positiveRatio| == |attributeWeights|
      requires epsilon != 0.0
      modifies this`positiveRatio, this`attributeWeights
      ensures positiveRatio == ratios
      ensures attributeWeights == RatioWeights(ratios, epsilon, exp)
    {
      var i := 0;
      while i < attributesNumber
        invariant 0 <= i <= attributesNumber
        invariant |positiveRatio| == attributesNumber && |attributeWeights| == attributesNumber
        invariant forall j :: 0 <= j < i ==> positiveRatio[j] == ratios[j]
        invariant forall j :: 0 <= j < i ==> attributeWeights[j] == AttributeWeight(ratios[j], epsilon, exp)
      {
        positiveRatio := positiveRatio[i := ratios[i]];
        // (tmp1, tmp2): exp((1 - ratio) / eps^2) and exp(ratio / eps^2)
        attributeWeights := attributeWeights[i := AttributeWeight(positiveRatio[i], epsilon, exp)];
        i := i + 1;
      }
    }

    /** Reshape: the LossLayer checks, then the batch size and per-example
        size, then the element count check. */
    method Reshape(bottom0: Tensor, bottom1: Tensor, top: Blob) returns (o: Outcome)
      requires bottom0.WellFormed() && bottom1.WellFormed()
      requires |bottom0.shape| >= 1 && |bottom1.shape| >= 1
      modifies this, top
      ensures bottom0.shape[0] != bottom1.shape[0] ==>
                o == Fail(FirstDimensionMismatch(bottom0.shape[0], bottom1.shape[0])) && unchanged(this) && unchanged(top)
      ensures bottom0.shape[0] == bottom1.shape[0] ==>
                top.shape == [] && |top.data| == 1
                && outerNum == bottom0.shape[0] && innerNum == Count(bottom0.shape[1..])
                && outerNum >= 0 && innerNum >= 0
                && outerNum * innerNum == Count(bottom0.shape)
                && (o.Pass? <==> Count(bottom0.shape) == Count(bottom1.shape))
                && (o.Fail? ==> o.error == CountMismatch(Count(bottom0.shape), Count(bottom1.shape)))
      ensures normalization == old(normalization) && normalizer == old(normalizer)
              && attributesNumber == old(attributesNumber) && attributeWeights == old(attributeWeights)
              && positiveRatio == old(positiveRatio) && epsilon == old(epsilon)
              && hasPositiveRatio == old(hasPositiveRatio) && mlscelParam == old(mlscelParam)
    {
      o := base.Reshape(bottom0, bottom1, top);
      if o.Fail? {
        return;
      }
      outerNum := bottom0.shape[0];
      innerNum := Count(bottom0.shape[1..]);
      assert NonNegativeShape(bottom0.shape[1..]) by {
        forall k | 0 <= k < |bottom0.shape| - 1 ensures bottom0.shape[1..][k] >= 0 {
          assert bottom0.shape[1..][k] == bottom0.shape[k + 1];
        }
      }
      CountNonNegative(bottom0.shape[1..]);
      if Count(bottom0.shape) != Count(bottom1.shape) {
        return Fail(CountMismatch(Count(bottom0.shape), Count(bottom1.shape)));
      }
    }

    /** get_normalizer: the same policy as LossLayer::GetNormalizer, read
        from this layer's batch and per-example sizes. */
    function GetNormalizer(mode: NormalizationMode, validCount: int): (r: Result<real>)
      reads this
      ensures r == LossLayers.GetNormalizer(mode, outerNum, innerNum, validCount)
    {
      match mode
      case Full => Ok(LossLayers.ClampToOne((outerNum * innerNum) as real))
      case Valid =>
        if validCount == -1 then Ok(LossLayers.ClampToOne((outerNum * innerNum) as real))
        else Ok(LossLayers.ClampToOne(validCount as real))
      case BatchSize => Ok(LossLayers.ClampToOne(outerNum as real))
      case None => Ok(LossLayers.ClampToOne(1.0))
      case Unrecognized(code) => Err(UnknownNormalizationMode(code))
    }

    /** The accumulation loop of Forward_cpu: the weighted loss over every
        element and the number of elements seen. */
    method AccumulateLoss(targets: seq<real>, probs: seq<real>, log: real -> real) returns (loss: real, validCount: int)
      requires Consistent()
      requires |targets| == |probs| && (attributesNumber > 0 || |probs| == 0)
      ensures validCount == |probs|
      ensures loss == WeightedLoss(attributeWeights, targets, probs, log)
    {
      validCount := 0;
      loss := 0.0;
      var i := 0;
      while i < |probs|
        invariant 0 <= i <= |probs|
        invariant validCount == i
        invariant loss == PrefixLoss(attributeWeights, targets, probs, log, i)
      {
        var targetValue := TruncateToInt(targets[i]);
        var attIndex := i % attributesNumber;
        if targetValue == 1 {
          loss := loss - attributeWeights[attIndex].0 * log(probs[i]);
        }
        if targetValue == 0 {
          loss := loss - attributeWeights[attIndex].1 * log(1.0 - probs[i]);
        }
        validCount := validCount + 1;
        i := i + 1;
      }
    }

    /** Forward_cpu: `sigmoidOut` is what the internal sigmoid layer
        computed from the predictions; the loss is written to the scalar
        output blob. */
    method Forward(pred: Tensor, target: Tensor, sigmoidOut: seq<real>, log: real -> real, top: Blob) returns (o: Outcome)
      requires Consistent() && pred.WellFormed() && target.WellFormed()
      requires |target.data| == |pred.data| && |sigmoidOut| == |pred.data|
      requires attributesNumber > 0 || |pred.data| == 0
      requires |top.data| >= 1
      modifies this`normalizer, top
      ensures var r := ForwardResult(normalization, outerNum, innerNum, attributeWeights, target.data, sigmoidOut, log);
        (r.Ok? ==> o == Pass && normalizer == r.value.0 && top.data == old(top.data)[0 := r.value.1]) &&
        (r.Err? ==> o == Fail(r.error) && normalizer == old(normalizer) && top.data == old(top.data))
      ensures top.shape == old(top.shape)
    {
      var loss, validCount := AccumulateLoss(target.data, sigmoidOut, log);
      var n := GetNormalizer(normalization, validCount);
      if n.Err? {
        return Fail(n.error);
      }
      normalizer := n.value;
      top.data := top.data[0 := loss / normalizer];
      o := Pass;
    }
  }

  /** A layer built from a parameter without positive ratios and set up for
      the first time weighs every attribute (1, 1). */
  method SetUpFreshLayer(param: LayerParameter, bottom0: Tensor, exp: real -> real)
    returns (layer: MultiLabelSigmoidCrossEntropyLossLayer, o: Outcome)
    requires param.multiLabelParam.positiveRatio == []
    requires bottom0.WellFormed() && |bottom0.shape| >= 2
    ensures fresh(layer) && o == Pass && layer.Consistent()
    ensures layer.attributesNumber == bottom0.shape[1]
    ensures forall k :: 0 <= k < layer.attributesNumber ==> layer.attributeWeights[k] == (1.0, 1.0)
    ensures forall k :: 0 <= k < layer.attributesNumber ==> layer.positiveRatio[k] == 1.0
  {
    layer := new MultiLabelSigmoidCrossEntropyLossLayer(param);
    o := layer.LayerSetUp(bottom0, exp);
  }
}
