/** The generic loss layer: the default loss weight, the first-dimension
    check with its scalar output shape, and the loss normalizer policy. */
module LossLayers {
  import opened CaffeBase

  /** std::max(1.0, x): the normalizer never drops below one. */
  function ClampToOne(x: real): (r: real)
    ensures r >= 1.0 && r >= x
    ensures r == 1.0 || r == x
  {
    if 1.0 < x then x else 1.0
  }

  /** LossLayer::GetNormalizer: the divisor the summed loss is scaled by. */
  function GetNormalizer(mode: NormalizationMode, outerNum: int, innerNum: int, validCount: int): (r: Result<real>)
    ensures r.Ok? <==> !mode.Unrecognized?
    ensures r.Ok? ==> r.value >= 1.0
    ensures mode.Unrecognized? ==> r == Err(UnknownNormalizationMode(mode.code))
  {
    match mode
    case Full => Ok(ClampToOne((outerNum * innerNum) as real))
    case Valid =>
      if validCount == -1 then Ok(ClampToOne((outerNum * innerNum) as real))
      else Ok(ClampToOne(validCount as real))
    case BatchSize => Ok(ClampToOne(outerNum as real))
    case None => Ok(ClampToOne(1.0))
    case Unrecognized(code) => Err(UnknownNormalizationMode(code))
  }

  lemma NoneNormalizerIsOne(outerNum: int, innerNum: int, validCount: int)
    ensures GetNormalizer(None, outerNum, innerNum, validCount) == Ok(1.0)
  {
  }

  lemma BatchSizeNormalizerIgnoresCounts(outerNum: int, innerNum: int, validCount: int, innerNum': int, validCount': int)
    ensures GetNormalizer(BatchSize, outerNum, innerNum, validCount) == Ok(if outerNum >= 1 then outerNum as real else 1.0)
    ensures GetNormalizer(BatchSize, outerNum, innerNum, validCount) == GetNormalizer(BatchSize, outerNum, innerNum', validCount')
  {
  }

  lemma FullNormalizerIsElementCount(outerNum: int, innerNum: int, validCount: int)
    ensures GetNormalizer(Full, outerNum, innerNum, validCount)
         == Ok(if outerNum * innerNum >= 1 then (outerNum * innerNum) as real else 1.0)
  {
  }

  /** VALID with the "all valid" marker -1 is FULL, whatever FULL's own count argument. */
  lemma ValidWithoutCountIsFull(outerNum: int, innerNum: int, validCount: int)
    ensures GetNormalizer(Valid, outerNum, innerNum, -1) == GetNormalizer(Full, outerNum, innerNum, validCount)
  {
  }

  /** VALID with a real count divides by that count, clamped; negative counts give 1. */
  lemma ValidWithCountIsClampedCount(outerNum: int, innerNum: int, validCount: int)
    requires validCount != -1
    ensures GetNormalizer(Valid, outerNum, innerNum, validCount) == Ok(if validCount >= 1 then validCount as real else 1.0)
    ensures validCount < 1 ==> GetNormalizer(Valid, outerNum, innerNum, validCount) == Ok(1.0)
  {
  }

  /** The loss weights after LossLayer::LayerSetUp: a single weight of one
      when none is configured, the configured ones otherwise. */
  function WithDefaultLossWeight(weights: seq<real>): (r: seq<real>)
    ensures |r| >= 1
    ensures weights != [] ==> r == weights
    ensures weights == [] ==> r == [1.0]
  {
    if |weights| == 0 then weights + [1.0] else weights
  }

  lemma DefaultLossWeightIsIdempotent(weights: seq<real>)
    ensures WithDefaultLossWeight(WithDefaultLossWeight(weights)) == WithDefaultLossWeight(weights)
  {
  }

  /** The LossLayer part of a loss layer: the layer parameter it owns. */
  class LossLayer {
    var layerParam: LayerParameter

    constructor (param: LayerParameter)
      ensures layerParam == param
    {
      layerParam := param;
    }

    /** LossLayer::LayerSetUp: losses carry weight 1 unless configured. */
    method LayerSetUp()
      modifies this
      ensures layerParam == old(layerParam).(lossWeight := WithDefaultLossWeight(old(layerParam.lossWeight)))
    {
      if |layerParam.lossWeight| == 0 {
        layerParam := layerParam.(lossWeight := layerParam.lossWeight + [1.0]);
      }
    }

    /** LossLayer::Reshape: data and label agree on the first axis; the
        output is a scalar (a blob with zero axes and one element). */
    method Reshape(bottom0: Tensor, bottom1: Tensor, top: Blob) returns (o: Outcome)
      requires |bottom0.shape| >= 1 && |bottom1.shape| >= 1
      modifies top
      ensures o.Pass? <==> bottom0.shape[0] == bottom1.shape[0]
      ensures o.Fail? ==> o.error == FirstDimensionMismatch(bottom0.shape[0], bottom1.shape[0]) && unchanged(top)
      ensures o.Pass? ==> top.shape == [] && |top.data| == Count(top.shape)
    {
      if bottom0.shape[0] != bottom1.shape[0] {
        return Fail(FirstDimensionMismatch(bottom0.shape[0], bottom1.shape[0]));
      }
      var lossShape: seq<int> := [];
      top.shape := lossShape;
      top.data := if |top.data| >= 1 then top.data[..1] else [0.0];
      o := Pass;
    }
  }
}
