/** Value types shared by every part of the model: optional values, results of
    operations that can throw, bytes, sizes and the float tensors passed to and
    from the inference engine. Float32 elements are modelled as `real`. */
module Common {

  datatype Option<+T> = None | Some(value: T)

  /** The exceptions the core raises or lets propagate. */
  datatype Error =
    | NoBackendAvailable              // every execution provider refused the model
    | NullReference(field: string)    // a property read through `null`
    | UnknownMessageType(kind: string)
    | InvalidTensor                   // the runtime refused a tensor's dimensions
    | InferenceFailure(reason: string) // a `session.run` that rejected

  /** The outcome of an `async` operation: a value, or an exception. */
  datatype Result<+T> = Ok(value: T) | Throw(error: Error)

  newtype byte = x: int | 0 <= x < 256

  type Bytes = seq<byte>

  /** A `{w, h}` pair. */
  datatype Size = Size(w: nat, h: nat)

  /** An engine tensor: its flat element data and its dimensions. */
  datatype Tensor = Tensor(data: seq<real>, dims: seq<int>)

  /** A prompt point in model-input coordinates; label 1 marks a point on
      the object, 0 a point on the background. */
  datatype Point = Point(x: real, y: real, pointLabel: int)

  /** What the mask decoder returns: the candidate masks and one predicted
      IoU score per mask. */
  datatype MaskResult = MaskResult(masks: Tensor, iouPredictions: seq<real>)

  function Min(a: int, b: int): int { if a <= b then a else b }

  // ---------------------------------------------------------------------
  // Index arithmetic used by the layout loops
  // ---------------------------------------------------------------------

  /** A multiple of `d` strictly between `-d` and `d` is zero. */
  lemma ZeroFactor(x: int, d: int)
    requires d > 0 && -d < x * d < d
    ensures x == 0
  {
  }

  lemma MulLe(a: nat, b: nat, c: nat)
    requires a <= b
    ensures a * c <= b * c
  {
  }

  lemma MulCancelLt(a: nat, b: nat, c: nat)
    requires a * c < b * c
    ensures a < b
  {
  }

  /** Division and remainder recover the two parts of `q * d + r`. */
  lemma DivModOf(q: nat, d: nat, r: nat)
    requires r < d
    ensures (q * d + r) / d == q && (q * d + r) % d == r
  {
    var k := q * d + r;
    var q', r' := k / d, k % d;
    assert k == q' * d + r';
    assert (q - q') * d == r' - r;
    ZeroFactor(q - q', d);
  }

  /** An index below `planes * plane` lies in plane `k / plane`, which is
      one of the `planes`. */
  lemma PlaneOf(k: nat, planes: nat, plane: nat)
    requires k < planes * plane
    ensures plane > 0 && k / plane < planes && k % plane < plane
  {
    assert planes * plane > 0;
    assert plane > 0;
    assert (k / plane) * plane <= k;
    MulCancelLt(k / plane, planes, plane);
  }

  /** Finishing a channel plane reaches the start of the next. */
  lemma NextPlane(c: nat, plane: nat)
    ensures c * plane + plane == (c + 1) * plane
  {
  }
}
