/** Values shared by the loss layers: parameter messages, error kinds, the
    normalization mode enumeration, tensors and the few container and number
    conversions the layers rely on. */
module CaffeBase {

  /** An optional protobuf field: `Present` is what `has_x()` reports as set. */
  datatype Option<T> = Absent | Present(value: T)

  /** The ways a layer call can go wrong. In Caffe each of these is a fatal
      CHECK or LOG(FATAL); here they are returned to the caller. */
  datatype Error =
    | RatioCountMismatch(ratios: nat, attributes: int)
    | FirstDimensionMismatch(first0: int, first1: int)
    | CountMismatch(count0: int, count1: int)
    | UnknownNormalizationMode(code: int)

  datatype Outcome = Pass | Fail(error: Error)

  datatype Result<T> = Ok(value: T) | Err(error: Error)

  /** LossParameter.NormalizationMode. A C++ enum variable can hold a value
      outside the four named ones; `Unrecognized` stands for such a value. */
  datatype NormalizationMode = Full | Valid | BatchSize | None | Unrecognized(code: int)

  /** The fields of LossParameter that the layers read. */
  datatype LossParameter = LossParameter(
    ignoreLabel: Option<int>,
    normalization: Option<NormalizationMode>,
    normalize: Option<bool>)

  /** MultiLabelSigmoidCrossEntropyLossParameter. */
  datatype MultiLabelParameter = MultiLabelParameter(positiveRatio: seq<real>, epsilon: real)

  /** The fields of LayerParameter that the loss layers read or write. */
  datatype LayerParameter = LayerParameter(
    lossWeight: seq<real>,
    lossParam: LossParameter,
    multiLabelParam: MultiLabelParameter)

  /** Number of elements of a blob of the given shape (Blob::count). */
  function Count(shape: seq<int>): int
  {
    if shape == [] then 1 else shape[0] * Count(shape[1..])
  }

  /** Every axis of a blob shape is non-negative, as Blob::Reshape checks. */
  predicate NonNegativeShape(shape: seq<int>)
  {
    forall k :: 0 <= k < |shape| ==> shape[k] >= 0
  }

  lemma {:induction false} CountNonNegative(shape: seq<int>)
    requires NonNegativeShape(shape)
    ensures Count(shape) >= 0
  {
    if shape != [] {
      assert NonNegativeShape(shape[1..]) by {
        forall k | 0 <= k < |shape[1..]| ensures shape[1..][k] >= 0 {
          assert shape[1..][k] == shape[k + 1];
        }
      }
      CountNonNegative(shape[1..]);
      assert shape[0] >= 0;
    }
  }

  /** A read-only input blob: its shape and its data, row-major. */
  datatype Tensor = Tensor(shape: seq<int>, data: seq<real>)
  {
    predicate WellFormed()
    {
      NonNegativeShape(shape) && |data| == Count(shape)
    }
  }

  /** An output blob whose shape and data a layer overwrites. */
  class Blob {
    var shape: seq<int>
    var data: seq<real>

    constructor ()
      ensures shape == [] && data == []
    {
      shape, data := [], [];
    }
  }

  /** std::vector::resize(n, fill): keeps the first min(|s|, n) elements and
      pads with copies of `fill`. */
  function Resize<T>(s: seq<T>, n: nat, fill: T): (r: seq<T>)
    ensures |r| == n
    ensures forall k :: 0 <= k < n ==> r[k] == if k < |s| then s[k] else fill
  {
    if n <= |s| then s[..n] else s + seq(n - |s|, _ => fill)
  }

  /** static_cast<int> of a floating-point value: truncation toward zero. */
  function TruncateToInt(x: real): int
  {
    if x >= 0.0 then x.Floor else -((-x).Floor)
  }

  lemma TruncatesToOne(x: real)
    ensures TruncateToInt(x) == 1 <==> 1.0 <= x < 2.0
  {
  }

  lemma TruncatesToZero(x: real)
    ensures TruncateToInt(x) == 0 <==> -1.0 < x < 1.0
  {
  }
}
