/** The inference worker (app/sam-worker.js): the tensor preparation it runs
    before encoding an image, and its message dispatcher with the module-level
    engine and timing statistics. */
module SamWorker {
  import opened Common
  import opened ModelConfig
  import opened Sam2

  // ---------------------------------------------------------------------
  // Index arithmetic shared by the layout and normalization loops
  // ---------------------------------------------------------------------

  /** Swapping the roles of the two factors of an index keeps it in range:
      `(k % c) * p + k / c` is below `c * p` whenever `k` is. */
  lemma TransposedIndex(k: nat, c: nat, p: nat)
    requires k < c * p
    ensures c > 0 && (k % c) * p + k / c < c * p
  {
    assert c * p == p * c;
    PlaneOf(k, p, c);
    assert (k % c) * p <= (c - 1) * p;
    assert (c - 1) * p + p == c * p;
  }

  /** Pixel `h * width + w` of a `height` x `width` plane is in the plane. */
  lemma PixelIndex(h: nat, w: nat, height: nat, width: nat)
    requires h < height && w < width
    ensures h * width + w < height * width
  {
    MulLe(h + 1, height, width);
    assert (h + 1) * width == h * width + width;
  }

  // ---------------------------------------------------------------------
  // CHW -> HWC
  // ---------------------------------------------------------------------

  /** The CHW index that HWC index `k` takes its value from: `k` is pixel
      `k / channels`, channel `k % channels`. */
  function HwcSource(k: nat, channels: nat, plane: nat): (j: nat)
    requires k < channels * plane
    ensures j < channels * plane
  {
    TransposedIndex(k, channels, plane);
    (k % channels) * plane + k / channels
  }

  /** The HWC index that CHW index `j` takes its value from: `j` is channel
      `j / plane`, pixel `j % plane`. */
  function ChwSource(j: nat, channels: nat, plane: nat): (k: nat)
    requires j < channels * plane
    ensures k < channels * plane
  {
    PlaneOf(j, channels, plane);
    PixelIndex(j % plane, j / plane, plane, channels);
    (j % plane) * channels + j / plane
  }

  /** The HWC reordering of `channels` planes of `height * width` values.
      Positions from `channels * height * width` on are left at zero. */
  function HwcOf(chw: seq<real>, channels: nat, height: nat, width: nat): (hwc: seq<real>)
    requires channels * (height * width) <= |chw|
    ensures |hwc| == |chw|
  {
    seq(|chw|, k requires 0 <= k < |chw| =>
      if k < channels * (height * width) then chw[HwcSource(k, channels, height * width)] else 0.0)
  }

  /** The inverse reordering, HWC back to CHW. */
  function ChwOf(hwc: seq<real>, channels: nat, height: nat, width: nat): (chw: seq<real>)
    requires channels * (height * width) <= |hwc|
    ensures |chw| == |hwc|
  {
    seq(|hwc|, j requires 0 <= j < |hwc| =>
      if j < channels * (height * width) then hwc[ChwSource(j, channels, height * width)] else 0.0)
  }

  /** Where pixel `(h, w)` of channel `c` sits in each layout. */
  lemma HwcIndex(h: nat, w: nat, c: nat, height: nat, width: nat, channels: nat)
    requires h < height && w < width && c < channels
    ensures h * width * channels + w * channels + c == (h * width + w) * channels + c
    ensures (h * width + w) * channels + c < channels * (height * width)
    ensures HwcSource((h * width + w) * channels + c, channels, height * width)
         == c * (height * width) + h * width + w
  {
    var p := h * width + w;
    var plane := height * width;
    PixelIndex(h, w, height, width);
    DivModOf(p, channels, c);
    MulLe(p + 1, plane, channels);
    assert (p + 1) * channels == p * channels + channels;
    assert plane * channels == channels * plane;
    assert h * width * channels + w * channels == p * channels;
  }

  /** Reading HWC back into CHW order returns to the starting index. */
  lemma ChwSourceInverse(j: nat, channels: nat, plane: nat)
    requires j < channels * plane
    ensures HwcSource(ChwSource(j, channels, plane), channels, plane) == j
  {
    PlaneOf(j, channels, plane);
    var c, p := j / plane, j % plane;
    var k := ChwSource(j, channels, plane);
    assert k == p * channels + c;
    DivModOf(p, channels, c);
    assert HwcSource(k, channels, plane) == c * plane + p;
  }

  /** Reading CHW into HWC order and back returns to the starting index. */
  lemma HwcSourceInverse(k: nat, channels: nat, plane: nat)
    requires k < channels * plane
    ensures ChwSource(HwcSource(k, channels, plane), channels, plane) == k
  {
    var p, c := PixelChannel(k, channels, plane);
    var j := HwcSource(k, channels, plane);
    assert j == c * plane + p;
    DivModOf(c, plane, p);
  }

  /** HWC index `k` is channel `c` of pixel `p`: `k == p * channels + c`. */
  lemma PixelChannel(k: nat, channels: nat, plane: nat) returns (p: nat, c: nat)
    requires k < channels * plane
    ensures channels > 0 && p < plane && c < channels
    ensures p == k / channels && c == k % channels && k == p * channels + c
  {
    TransposedIndex(k, channels, plane);
    p, c := k / channels, k % channels;
    assert channels * plane == plane * channels;
    PlaneOf(k, plane, channels);
  }

  /** The value of HWC position `k`. */
  lemma HwcOfIndex(chw: seq<real>, channels: nat, height: nat, width: nat, k: nat)
    requires channels * (height * width) <= |chw|
    requires k < channels * (height * width)
    ensures HwcOf(chw, channels, height, width)[k] == chw[HwcSource(k, channels, height * width)]
  {
  }

  /** `chwToHwc`: the value of channel `c` at pixel `p` moves from index
      `c * height * width + p` to index `p * channels + c`. */
  lemma PixelMoves(chw: seq<real>, channels: nat, height: nat, width: nat, p: nat, c: nat)
    requires channels * (height * width) <= |chw|
    requires p < height * width && c < channels
    ensures p * channels + c < |chw| && c * (height * width) + p < |chw|
    ensures HwcOf(chw, channels, height, width)[p * channels + c] == chw[c * (height * width) + p]
  {
    var plane := height * width;
    DivModOf(p, channels, c);
    MulLe(p + 1, plane, channels);
    assert plane * channels == channels * plane;
    HwcOfIndex(chw, channels, height, width, p * channels + c);
  }

  /** The reordering loses nothing: going back to CHW restores the input. */
  lemma HwcRoundTrip(chw: seq<real>, channels: nat, height: nat, width: nat)
    requires |chw| == channels * (height * width)
    ensures ChwOf(HwcOf(chw, channels, height, width), channels, height, width) == chw
  {
    var hwc := HwcOf(chw, channels, height, width);
    forall j | 0 <= j < |chw|
      ensures ChwOf(hwc, channels, height, width)[j] == chw[j]
    {
      ChwSourceInverse(j, channels, height * width);
    }
  }

  /** ... and every HWC arrangement is the image of some CHW one, so the
      reordering is a bijection on sequences of that length. */
  lemma ChwRoundTrip(hwc: seq<real>, channels: nat, height: nat, width: nat)
    requires |hwc| == channels * (height * width)
    ensures HwcOf(ChwOf(hwc, channels, height, width), channels, height, width) == hwc
  {
    var chw := ChwOf(hwc, channels, height, width);
    forall k | 0 <= k < |hwc|
      ensures HwcOf(chw, channels, height, width)[k] == hwc[k]
    {
      HwcSourceInverse(k, channels, height * width);
    }
  }

  /** With a single channel the two layouts coincide. */
  lemma HwcSingleChannel(chw: seq<real>, height: nat, width: nat)
    requires |chw| == height * width
    ensures HwcOf(chw, 1, height, width) == chw
  {
    forall k | 0 <= k < |chw|
      ensures HwcOf(chw, 1, height, width)[k] == chw[k]
    {
      DivModOf(k, 1, 0);
    }
  }

  /** Moving on from the last channel of pixel `(h, w)` reaches the first
      channel of the next pixel, and from the last column of row `h` the
      first column of row `h + 1`. */
  lemma NextPixel(h: nat, w: nat, width: nat, channels: nat)
    ensures (h * width + w) * channels + channels == (h * width + (w + 1)) * channels
    ensures (h * width + width) * channels == (h + 1) * width * channels
    ensures (h * width + 0) * channels == h * width * channels
  {
  }

  /** `chwToHwc`: fills a fresh buffer of the input's length with a triple
      loop over rows, columns and channels. */
  method ChwToHwc(chwArray: seq<real>, channels: nat, height: nat, width: nat) returns (hwc: seq<real>)
    requires channels * (height * width) <= |chwArray|
    ensures hwc == HwcOf(chwArray, channels, height, width)
  {
    var hwcArray := new real[|chwArray|](_ => 0.0);
    var channelSize := height * width;
    ghost var spec := HwcOf(chwArray, channels, height, width);
    ghost var done := 0;
    for h := 0 to height
      invariant done == h * width * channels
      invariant done <= channels * channelSize
      invariant forall k :: 0 <= k < done ==> hwcArray[k] == spec[k]
      invariant forall k :: done <= k < hwcArray.Length ==> hwcArray[k] == 0.0
    {
      NextPixel(h, 0, width, channels);
      for w := 0 to width
        invariant done == (h * width + w) * channels
        invariant done <= channels * channelSize
        invariant forall k :: 0 <= k < done ==> hwcArray[k] == spec[k]
        invariant forall k :: done <= k < hwcArray.Length ==> hwcArray[k] == 0.0
      {
        for c := 0 to channels
          invariant done == (h * width + w) * channels + c
          invariant done <= channels * channelSize
          invariant forall k :: 0 <= k < done ==> hwcArray[k] == spec[k]
          invariant forall k :: done <= k < hwcArray.Length ==> hwcArray[k] == 0.0
        {
          var chwIdx := c * channelSize + h * width + w;
          var hwcIdx := h * width * channels + w * channels + c;
          HwcIndex(h, w, c, height, width, channels);
          HwcOfIndex(chwArray, channels, height, width, done);
          hwcArray[hwcIdx] := chwArray[chwIdx];
          done := done + 1;
        }
        NextPixel(h, w, width, channels);
      }
      NextPixel(h, width, width, channels);
    }
    HwcTail(chwArray, channels, height, width, done);
    hwc := hwcArray[..];
  }

  /** Past `channels * height * width` the HWC buffer keeps its initial zeros. */
  lemma HwcTail(chw: seq<real>, channels: nat, height: nat, width: nat, done: nat)
    requires channels * (height * width) <= |chw|
    requires done == height * width * channels
    ensures forall k :: done <= k < |chw| ==> HwcOf(chw, channels, height, width)[k] == 0.0
  {
    assert done == channels * (height * width);
  }

  // ---------------------------------------------------------------------
  // Normalization and input-range scaling
  // ---------------------------------------------------------------------

  /** The parameters cover every channel and no standard deviation is zero. */
  predicate NormalizationFits(norm: Normalization, channels: nat) {
    |norm.mean| >= channels && |norm.std| >= channels &&
    forall c :: 0 <= c < channels ==> norm.std[c] != 0.0
  }

  /** The channel plane index `k` falls in. */
  function ChannelOf(k: nat, channels: nat, plane: nat): (c: nat)
    requires k < channels * plane
    ensures c < channels
  {
    PlaneOf(k, channels, plane);
    k / plane
  }

  /** One normalized value of channel `c`: scaled, shifted by the channel's
      mean and divided by the channel's standard deviation. */
  function NormalizedValue(x: real, norm: Normalization, c: nat): real
    requires c < |norm.mean| && c < |norm.std| && norm.std[c] != 0.0
  {
    (x * norm.scale - norm.mean[c]) / norm.std[c]
  }

  /** The normalized data: each of the first `channels` planes is scaled,
      shifted by its channel's mean and divided by its channel's standard
      deviation; positions past those planes are left at zero. */
  function Normalized(data: seq<real>, channels: nat, height: nat, width: nat, norm: Normalization): (r: seq<real>)
    requires NormalizationFits(norm, channels)
    requires channels * (height * width) <= |data|
    ensures |r| == |data|
  {
    seq(|data|, k requires 0 <= k < |data| =>
      if k < channels * (height * width) then
        NormalizedValue(data[k], norm, ChannelOf(k, channels, height * width))
      else 0.0)
  }

  /** `applyNormalization`: element `i` of channel `c` becomes
      `(data[c * height * width + i] * scale - mean[c]) / std[c]`. */
  lemma NormalizedAt(data: seq<real>, channels: nat, height: nat, width: nat, norm: Normalization, c: nat, i: nat)
    requires NormalizationFits(norm, channels)
    requires channels * (height * width) <= |data|
    requires c < channels && i < height * width
    ensures c * (height * width) + i < channels * (height * width)
    ensures Normalized(data, channels, height, width, norm)[c * (height * width) + i]
         == NormalizedValue(data[c * (height * width) + i], norm, c)
  {
    var plane := height * width;
    DivModOf(c, plane, i);
    MulLe(c + 1, channels, plane);
    assert (c + 1) * plane == c * plane + plane;
    assert ChannelOf(c * plane + i, channels, plane) == c;
  }

  /** Past the channel planes the normalized buffer keeps its initial zeros. */
  lemma NormalizedTail(data: seq<real>, channels: nat, height: nat, width: nat, norm: Normalization, done: nat)
    requires NormalizationFits(norm, channels)
    requires channels * (height * width) <= |data|
    requires done == channels * (height * width)
    ensures forall k :: done <= k < |data| ==> Normalized(data, channels, height, width, norm)[k] == 0.0
  {
  }

  /** `applyNormalization`: fills a fresh buffer of the input's length,
      channel plane by channel plane. */
  method ApplyNormalization(data: seq<real>, channels: nat, height: nat, width: nat, normalization: Normalization)
    returns (normalizedData: seq<real>)
    requires NormalizationFits(normalization, channels)
    requires channels * (height * width) <= |data|
    ensures normalizedData == Normalized(data, channels, height, width, normalization)
  {
    var channelSize := height * width;
    var out := new real[|data|](_ => 0.0);
    ghost var spec := Normalized(data, channels, height, width, normalization);
    ghost var done := 0;
    for c := 0 to channels
      invariant done == c * channelSize
      invariant done <= channels * channelSize
      invariant forall k :: 0 <= k < done ==> out[k] == spec[k]
      invariant forall k :: done <= k < out.Length ==> out[k] == 0.0
    {
      var base := c * channelSize;
      for i := 0 to channelSize
        invariant done == base + i
        invariant done <= channels * channelSize
        invariant forall k :: 0 <= k < done ==> out[k] == spec[k]
        invariant forall k :: done <= k < out.Length ==> out[k] == 0.0
      {
        var idx := base + i;
        NormalizedAt(data, channels, height, width, normalization, c, i);
        out[idx] := NormalizedValue(data[idx], normalization, c);
        done := done + 1;
      }
      NextPlane(c, channelSize);
    }
    NormalizedTail(data, channels, height, width, normalization, done);
    normalizedData := out[..];
  }

  /** Every element multiplied by `factor`. */
  function RangeScaled(data: seq<real>, factor: real): (r: seq<real>)
    ensures |r| == |data|
  {
    seq(|data|, i requires 0 <= i < |data| => data[i] * factor)
  }

  /** The `inputRange` step: multiplies every element by the factor, into a
      fresh buffer of the same length. */
  method ScaleInputRange(tensorData: seq<real>, inputRange: real) returns (scaledData: seq<real>)
    ensures |scaledData| == |tensorData|
    ensures forall i :: 0 <= i < |tensorData| ==> scaledData[i] == tensorData[i] * inputRange
  {
    var out := new real[|tensorData|](_ => 0.0);
    for i := 0 to |tensorData|
      invariant forall j :: 0 <= j < i ==> out[j] == tensorData[j] * inputRange
    {
      out[i] := tensorData[i] * inputRange;
    }
    scaledData := out[..];
  }

  // ---------------------------------------------------------------------
  // The `encodeImage` input pipeline
  // ---------------------------------------------------------------------

  /** A `[1, channels, height, width]` image tensor with matching data, as
      `canvasToFloat32Array` produces. */
  predicate ImageTensor(data: seq<real>, shape: seq<int>) {
    |shape| == 4 && shape[0] == 1 && shape[1] >= 1 && shape[2] >= 1 && shape[3] >= 1 &&
    |data| == shape[1] * (shape[2] * shape[3])
  }

  /** The descriptor's normalization, if any, fits the image's channels. */
  predicate NormalizationApplies(cfg: Descriptor, shape: seq<int>)
    requires |shape| == 4 && shape[1] >= 0
  {
    cfg.normalization.Some? ==> NormalizationFits(cfg.normalization.value, shape[1] as nat)
  }

  /** `if (inputRange)`: the factor is used only when present and non-zero. */
  predicate ScalesInputRange(cfg: Descriptor) {
    cfg.inputRange.Some? && cfg.inputRange.value != 0.0
  }

  /** The `[channels, height, width]` the layout step reads: the shape
      without its batch dimension, or, when the descriptor keeps the batch
      dimension, the shape's first three entries (`[1, channels, height]`). */
  function LayoutDims(cfg: Descriptor, shape: seq<int>): (d: seq<nat>)
    requires |shape| == 4 && shape[0] >= 1 && shape[1] >= 1 && shape[2] >= 1 && shape[3] >= 1
    ensures |d| == 3
    ensures cfg.useBatchDimension ==> d == [shape[0] as nat, shape[1] as nat, shape[2] as nat]
    ensures !cfg.useBatchDimension ==> d == [shape[1] as nat, shape[2] as nat, shape[3] as nat]
  {
    if cfg.useBatchDimension then [shape[0] as nat, shape[1] as nat, shape[2] as nat]
    else [shape[1] as nat, shape[2] as nat, shape[3] as nat]
  }

  /** The layout step never reads past the image data, even when it reads
      the batch dimension as the channel count. */
  lemma LayoutDimsFit(cfg: Descriptor, data: seq<real>, shape: seq<int>)
    requires ImageTensor(data, shape)
    ensures var d := LayoutDims(cfg, shape); d[0] * (d[1] * d[2]) <= |data|
  {
    var c, h, w := shape[1] as nat, shape[2] as nat, shape[3] as nat;
    MulLe(1, w, c * h);
    assert c * (h * w) == (c * h) * w;
  }

  /** The image data after normalization (when configured) and input-range
      scaling (when configured). */
  function RescaledData(cfg: Descriptor, data: seq<real>, shape: seq<int>): (r: seq<real>)
    requires ImageTensor(data, shape) && NormalizationApplies(cfg, shape)
    ensures |r| == |data|
  {
    var normalized := if cfg.normalization.Some?
      then Normalized(data, shape[1] as nat, shape[2] as nat, shape[3] as nat, cfg.normalization.value)
      else data;
    if ScalesInputRange(cfg) then RangeScaled(normalized, cfg.inputRange.value) else normalized
  }

  /** The encoder input data: normalization (when configured), then
      input-range scaling (when configured), then the layout change. */
  function EncoderInputData(cfg: Descriptor, data: seq<real>, shape: seq<int>): (r: seq<real>)
    requires ImageTensor(data, shape) && NormalizationApplies(cfg, shape)
    ensures |r| == |data|
  {
    var ranged := RescaledData(cfg, data, shape);
    if cfg.tensorFormat == HWC then
      var d := LayoutDims(cfg, shape);
      LayoutDimsFit(cfg, data, shape);
      HwcOf(ranged, d[0], d[1], d[2])
    else ranged
  }

  /** The encoder input shape: the layout's `[height, width, channels]` for
      HWC; for CHW the image shape, without its batch dimension unless the
      descriptor keeps it. */
  function EncoderInputShape(cfg: Descriptor, shape: seq<int>): (s: seq<int>)
    requires |shape| == 4 && shape[0] >= 1 && shape[1] >= 1 && shape[2] >= 1 && shape[3] >= 1
    // CHW keeps the batch dimension or drops it
    ensures cfg.tensorFormat == CHW && cfg.useBatchDimension ==> s == shape
    ensures cfg.tensorFormat == CHW && !cfg.useBatchDimension ==> s == [shape[1], shape[2], shape[3]]
    // HWC without batch is [height, width, channels]
    ensures cfg.tensorFormat == HWC && !cfg.useBatchDimension ==> s == [shape[2], shape[3], shape[1]]
    // HWC with batch reads the still-batched shape as [channels, height, width]
    ensures cfg.tensorFormat == HWC && cfg.useBatchDimension ==> s == [shape[1], shape[2], shape[0]]
  {
    if cfg.tensorFormat == HWC then
      var d := LayoutDims(cfg, shape);
      [d[1], d[2], d[0]]
    else if cfg.useBatchDimension then shape
    else shape[1..]
  }

  /** The tensor handed to the encoder. */
  function EncoderInput(cfg: Descriptor, data: seq<real>, shape: seq<int>): Tensor
    requires ImageTensor(data, shape) && NormalizationApplies(cfg, shape)
  {
    Tensor(EncoderInputData(cfg, data, shape), EncoderInputShape(cfg, shape))
  }

  /** The value steps of the `encodeImage` branch: normalization (when
      configured), then input-range scaling (when configured). */
  method RescaleEncoderInput(cfg: Descriptor, float32Array: seq<real>, shape: seq<int>)
    returns (tensorData: seq<real>)
    requires ImageTensor(float32Array, shape) && NormalizationApplies(cfg, shape)
    ensures tensorData == RescaledData(cfg, float32Array, shape)
  {
    tensorData := float32Array;

    if cfg.normalization.Some? {
      var channels, height, width := shape[1] as nat, shape[2] as nat, shape[3] as nat;
      tensorData := ApplyNormalization(tensorData, channels, height, width, cfg.normalization.value);
    }

    if ScalesInputRange(cfg) {
      ghost var before := tensorData;
      tensorData := ScaleInputRange(tensorData, cfg.inputRange.value);
      assert forall i :: 0 <= i < |tensorData| ==> tensorData[i] == RangeScaled(before, cfg.inputRange.value)[i];
    }
  }

  /** The `encodeImage` branch up to building the tensor: the data and the
      shape handed to the encoder. */
  method PrepareEncoderInput(cfg: Descriptor, float32Array: seq<real>, shape: seq<int>)
    returns (tensorData: seq<real>, tensorShape: seq<int>)
    requires ImageTensor(float32Array, shape) && NormalizationApplies(cfg, shape)
    ensures tensorData == EncoderInputData(cfg, float32Array, shape)
    ensures tensorShape == EncoderInputShape(cfg, shape)
  {
    tensorData := RescaleEncoderInput(cfg, float32Array, shape);
    tensorShape := shape;

    if cfg.tensorFormat == HWC {
      var actualShape := LayoutDims(cfg, shape);
      var channels, height, width := actualShape[0], actualShape[1], actualShape[2];
      LayoutDimsFit(cfg, float32Array, shape);
      tensorData := ChwToHwc(tensorData, channels, height, width);
      tensorShape := [height, width, channels];
    } else {
      tensorShape := if cfg.useBatchDimension then shape else shape[1..];
    }
  }

  /** For the registered models: SAM2 feeds the image tensor unchanged;
      MobileSAM feeds it rescaled to [0, 255] and reordered to HWC. */
  lemma RegisteredEncoderInputs(data: seq<real>, shape: seq<int>)
    requires ImageTensor(data, shape)
    ensures EncoderInput(Sam2Tiny, data, shape) == Tensor(data, shape)
    ensures EncoderInput(MobileSamTiny, data, shape)
         == Tensor(HwcOf(RangeScaled(data, 255.0), shape[1] as nat, shape[2] as nat, shape[3] as nat),
                   [shape[2], shape[3], shape[1]])
  {
  }

  /** The HWC-with-batch branch: reading `[1, C, H, W]` as `[channels,
      height, width]` reorders only the first `C * H` elements and leaves
      the rest of the tensor zero. */
  lemma HwcWithBatchZeroesTail(cfg: Descriptor, data: seq<real>, shape: seq<int>)
    requires ImageTensor(data, shape) && NormalizationApplies(cfg, shape)
    requires cfg.tensorFormat == HWC && cfg.useBatchDimension
    ensures forall k :: shape[1] * shape[2] <= k < |data| ==> EncoderInputData(cfg, data, shape)[k] == 0.0
  {
    var d := LayoutDims(cfg, shape);
    assert d == [1, shape[1] as nat, shape[2] as nat];
    var ranged := RescaledData(cfg, data, shape);
    LayoutDimsFit(cfg, data, shape);
    assert EncoderInputData(cfg, data, shape) == HwcOf(ranged, 1, shape[1] as nat, shape[2] as nat);
    assert 1 * (shape[1] * shape[2]) == shape[1] * shape[2];
  }

  /** The element count of a three-dimensional shape. */
  lemma DimsSize3(a: int, b: int, c: int)
    ensures DimsSize([a, b, c]) == a * (b * c)
  {
    assert [c][1..] == [];
    assert DimsSize([c]) == c;
    assert [b, c][1..] == [c];
    assert DimsSize([b, c]) == b * c;
    assert [a, b, c][1..] == [b, c];
  }

  /** `new Tensor("float32", tensorData, tensorShape)` in the `encodeImage`
      branch. */
  function EncoderTensor(cfg: Descriptor, data: seq<real>, shape: seq<int>): Result<Tensor>
    requires ImageTensor(data, shape) && NormalizationApplies(cfg, shape)
  {
    NewTensor(EncoderInputData(cfg, data, shape), EncoderInputShape(cfg, shape))
  }

  /** The number of elements the encoder input shape describes: all of the
      image's, except on the HWC-with-batch branch, which describes `C·H`. */
  lemma EncoderShapeSize(cfg: Descriptor, shape: seq<int>)
    requires |shape| == 4 && shape[0] == 1 && shape[1] >= 1 && shape[2] >= 1 && shape[3] >= 1
    ensures forall i :: 0 <= i < |EncoderInputShape(cfg, shape)| ==> EncoderInputShape(cfg, shape)[i] >= 1
    ensures DimsSize(EncoderInputShape(cfg, shape)) ==
      if cfg.tensorFormat == HWC && cfg.useBatchDimension then shape[1] * shape[2]
      else shape[1] * (shape[2] * shape[3])
  {
    var c, h, w := shape[1], shape[2], shape[3];
    var dims := EncoderInputShape(cfg, shape);
    if cfg.tensorFormat == HWC && cfg.useBatchDimension {
      assert dims == [c, h, 1];
      DimsSize3(c, h, 1);
    } else if cfg.tensorFormat == HWC {
      assert dims == [h, w, c];
      DimsSize3(h, w, c);
      assert h * (w * c) == c * (h * w);
    } else if cfg.useBatchDimension {
      assert dims == [1, c, h, w];
      DimsSize3(c, h, w);
      assert dims[1..] == [c, h, w];
    } else {
      assert dims == [c, h, w];
      DimsSize3(c, h, w);
    }
  }

  /** The runtime accepts the encoder input for every layout but one: HWC
      with the batch dimension kept gives the shape `[C, H, 1]`, which
      describes the `C·H·W` elements only for a one-pixel-wide image. Every
      registered model's input is accepted. */
  lemma EncoderTensorAccepted(cfg: Descriptor, data: seq<real>, shape: seq<int>)
    requires ImageTensor(data, shape) && NormalizationApplies(cfg, shape)
    ensures !(cfg.tensorFormat == HWC && cfg.useBatchDimension) ==>
      EncoderTensor(cfg, data, shape) == Ok(EncoderInput(cfg, data, shape))
    ensures cfg.tensorFormat == HWC && cfg.useBatchDimension ==>
      (EncoderTensor(cfg, data, shape).Ok? <==> shape[3] == 1)
    ensures cfg in ModelTable.Values ==> EncoderTensor(cfg, data, shape).Ok?
  {
    var c, h, w := shape[1], shape[2], shape[3];
    EncoderShapeSize(cfg, shape);
    assert |EncoderInputData(cfg, data, shape)| == c * (h * w);
    if cfg.tensorFormat == HWC && cfg.useBatchDimension {
      assert c * (h * w) == (c * h) * w;
      if w != 1 {
        MulLe(2, w, c * h);
      }
    }
    if cfg in ModelTable.Values {
      RegisteredDescriptor(cfg);
    }
  }

  // ---------------------------------------------------------------------
  // The message dispatcher
  // ---------------------------------------------------------------------

  /** The messages the page sends. A missing `data` or `modelId` is `None`;
      a `maskShape` of `null` is `None`. */
  datatype Message =
    | Ping(modelId: Option<string>)
    | EncodeImage(float32Array: seq<real>, shape: seq<int>)
    | DecodeMask(points: seq<Point>, maskArray: Option<seq<real>>, maskShape: Option<seq<int>>)
    | StatsRequest
    | Other(kind: string)   // a type other than "ping", "encodeImage", "decodeMask" and "stats"

  /** The module-level `stats` record; `device` is `None` once a report
      without a device was recorded. */
  datatype Stats = Stats(
    modelId: Option<string>,
    device: Option<string>,
    downloadModelsTime: seq<real>,
    encodeImageTimes: seq<real>,
    decodeTimes: seq<real>)

  const InitialStats: Stats := Stats(None, Some("unknown"), [], [], [])

  /** The messages the worker posts back. */
  datatype Reply =
    | DownloadInProgress
    | LoadingInProgress
    | Pong(report: Report)
    | StatsReply(stats: Stats)
    | EncodeImageDone(durationMs: real)
    | DecodeMaskResult(result: MaskResult)

  /** The provider name a report carries. */
  function DeviceName(device: Option<Backend>): (name: Option<string>)
    ensures name.Some? <==> device.Some?
    ensures name == Some("webgpu") <==> device == Some(WebGpu)
    ensures name == Some("cpu") <==> device == Some(Cpu)
  {
    match device
    case None => None
    case Some(WebGpu) => Some("webgpu")
    case Some(Cpu) => Some("cpu")
  }

  /** `data?.modelId || DEFAULT_MODEL`: a missing or empty identifier
      selects the default model. */
  function SelectedModelId(modelId: Option<string>): (id: string)
  {
    if modelId.Some? && modelId.value != "" then modelId.value else DefaultModel
  }

  /** The descriptor the new engine gets: the registered entry, or, for an
      identifier that is not registered, the default entry. */
  function PingDescriptor(modelId: Option<string>): (d: Descriptor)
  {
    var found := Lookup(SelectedModelId(modelId));
    if found.Some? then found.value else DefaultDescriptor()
  }

  /** A ping always installs a registered model: the one named when it is
      registered, and the default model when no identifier, an empty one or
      an unregistered one is given. */
  lemma PingSelectsRegistered(modelId: Option<string>)
    ensures PingDescriptor(modelId) in ModelTable.Values
    ensures modelId.Some? && modelId.value in ModelTable ==> PingDescriptor(modelId) == ModelTable[modelId.value]
    ensures modelId.None? || modelId.value !in ModelTable ==> PingDescriptor(modelId) == ModelTable[DefaultModel]
  {
    assert DefaultModel in ModelTable;
  }

  /** The registered descriptors are the two entries of the table. */
  lemma RegisteredDescriptor(d: Descriptor)
    requires d in ModelTable.Values
    ensures d == MobileSamTiny || d == Sam2Tiny
  {
    var k :| k in ModelTable && ModelTable[k] == d;
  }

  /** The mask tensor `decodeMask` builds, only when the message carries a
      mask array: `new Tensor("float32", maskArray, maskShape)`, which the
      runtime refuses for a `null` shape or one that does not describe the
      array. */
  function MaskTensor(maskArray: Option<seq<real>>, maskShape: Option<seq<int>>): (t: Result<Option<Tensor>>)
    ensures maskArray.None? ==> t == Ok(None)
    ensures maskArray.Some? ==> (t.Ok? <==> maskShape.Some? && NewTensor(maskArray.value, maskShape.value).Ok?)
    ensures maskArray.Some? && t.Ok? ==> t.value == Some(Tensor(maskArray.value, maskShape.value))
    ensures t.Throw? ==> t.error == InvalidTensor
  {
    if maskArray.None? then Ok(None)
    else if maskShape.None? then Throw(InvalidTensor)
    else
      var made := NewTensor(maskArray.value, maskShape.value);
      if made.Ok? then Ok(Some(made.value)) else Throw(made.error)
  }

  /** The page's refinement mask, `h·w` values sent with the shape
      `[1, 1, h, w]`, is always accepted as the decoder's mask input. */
  lemma PageMaskAccepted(mask: seq<real>, h: nat, w: nat)
    requires |mask| == h * w
    ensures MaskTensor(Some(mask), Some([1, 1, h, w])) == Ok(Some(Tensor(mask, [1, 1, h, w])))
  {
    DimsSize3(1, h, w);
    assert [1, 1, h as int, w as int][1..] == [1, h, w];
  }

  /** The worker's module state: the engine (`null` before the first ping)
      and the statistics. */
  class Worker {
    var sam: SAM2?
    var stats: Stats

    constructor()
      ensures sam == null && stats == InitialStats
    {
      sam := null;
      stats := InitialStats;
    }

    /** The engine, once created, runs a registered model. */
    predicate Valid()
      reads this
    {
      sam != null ==> sam.modelConfig in ModelTable.Values
    }

    /** The first half of the `ping` branch: installs a fresh engine for the
        selected model, downloads its files and records the download time. */
    method InstallEngine(modelId: Option<string>, elapsed: real, store: Storage, net: Network)
      modifies this, store, net
      ensures Valid()
      ensures sam != null && fresh(sam) && sam.modelConfig == PingDescriptor(modelId)
      ensures var o := ModelDownloads(old(store.files), sam.modelConfig, net.responses, store.writeSucceeds);
        sam.bufferEncoder == o.encoder && sam.bufferDecoder == o.decoder &&
        store.files == o.files && net.requested == old(net.requested) + o.fetched
      ensures sam.sessionEncoder.None? && sam.sessionDecoder.None? && sam.imageEncoded.None?
      ensures stats == old(stats).(modelId := Some(SelectedModelId(modelId)),
                                   downloadModelsTime := old(stats.downloadModelsTime) + [elapsed])
    {
      var id := SelectedModelId(modelId);
      var modelConfig := Lookup(id);
      PingSelectsRegistered(modelId);
      var engineObject := new SAM2(modelConfig);
      sam := engineObject;
      stats := stats.(modelId := Some(id));
      engineObject.DownloadModels(store, net);
      stats := stats.(downloadModelsTime := stats.downloadModelsTime + [elapsed]);
    }

    /** The `ping` branch: installs a fresh engine for the selected model,
        downloads its files, records the download time and opens its
        sessions, the encoder's first. */
    method HandlePing(modelId: Option<string>, elapsed: real, store: Storage, net: Network, engine: Engine)
      returns (posted: seq<Reply>, thrown: Option<Error>)
      modifies this, store, net
      ensures Valid()
      ensures sam != null && fresh(sam) && sam.modelConfig == PingDescriptor(modelId)
      ensures var o := ModelDownloads(old(store.files), sam.modelConfig, net.responses, store.writeSucceeds);
        sam.bufferEncoder == o.encoder && sam.bufferDecoder == o.decoder &&
        store.files == o.files && net.requested == old(net.requested) + o.fetched
      ensures sam.sessionEncoder == Opened(FirstSession(engine, sam.bufferEncoder, ExecutionProviders))
      ensures sam.sessionDecoder ==
        if sam.sessionEncoder.Some? then Opened(FirstSession(engine, sam.bufferDecoder, ExecutionProviders)) else None
      ensures sam.imageEncoded.None?
      ensures stats.modelId == Some(SelectedModelId(modelId))
      ensures stats.downloadModelsTime == old(stats.downloadModelsTime) + [elapsed]
      ensures stats.encodeImageTimes == old(stats.encodeImageTimes) && stats.decodeTimes == old(stats.decodeTimes)
      ensures thrown.None? <==> sam.sessionEncoder.Some? && sam.sessionDecoder.Some?
      ensures thrown.None? ==>
        stats.device == DeviceName(Some(sam.sessionEncoder.value.ep)) &&
        posted == [DownloadInProgress, LoadingInProgress,
                   Pong(Report(true, Some(sam.sessionEncoder.value.ep))), StatsReply(stats)]
      ensures thrown.Some? ==>
        thrown == Some(NoBackendAvailable) && stats.device == old(stats.device) &&
        posted == [DownloadInProgress, LoadingInProgress]
    {
      posted := [DownloadInProgress];
      InstallEngine(modelId, elapsed, store, net);
      posted := posted + [LoadingInProgress];
      var report := sam.CreateSessions(engine);
      if report.Throw? {
        thrown := Some(report.error);
        return;
      }
      thrown := None;
      stats := stats.(device := DeviceName(report.value.device));
      posted := posted + [Pong(report.value), StatsReply(stats)];
    }

    /** The `encodeImage` branch: prepares the input tensor for the engine's
        model, encodes it and records the encoding time. A tensor the runtime
        refuses, a session that cannot be opened and a rejected run each
        throw, record nothing and keep the previous encoding. */
    method HandleEncodeImage(float32Array: seq<real>, shape: seq<int>, elapsed: real, engine: Engine)
      returns (posted: seq<Reply>, thrown: Option<Error>)
      requires Valid() && ImageTensor(float32Array, shape)
      modifies this, sam
      ensures Valid() && sam == old(sam)
      ensures old(sam) == null ==> stats == old(stats) && posted == [] && thrown == Some(NullReference("sam"))
      ensures old(sam) != null ==>
        sam.bufferEncoder == old(sam.bufferEncoder) && sam.bufferDecoder == old(sam.bufferDecoder) &&
        sam.sessionDecoder == old(sam.sessionDecoder)
      ensures old(sam) != null && EncoderTensor(sam.modelConfig, float32Array, shape).Throw? ==>
        thrown == Some(InvalidTensor) && sam.sessionEncoder == old(sam.sessionEncoder)
      ensures old(sam) != null && EncoderTensor(sam.modelConfig, float32Array, shape).Ok? ==>
        sam.sessionEncoder == Memoised(old(sam.sessionEncoder), engine, sam.bufferEncoder) &&
        (sam.sessionEncoder.None? ==> thrown == Some(NoBackendAvailable)) &&
        (sam.sessionEncoder.Some? ==>
           var run := engine.encode(sam.sessionEncoder.value.session, sam.modelConfig.encoderInputName,
                                    EncoderTensor(sam.modelConfig, float32Array, shape).value);
           (run.Throw? ==> thrown == Some(run.error)) &&
           (run.Ok? ==>
              thrown.None? && sam.imageEncoded == Bind(sam.modelType, run.value, old(sam.imageEncoded)) &&
              stats == old(stats).(encodeImageTimes := old(stats.encodeImageTimes) + [elapsed]) &&
              posted == [EncodeImageDone(elapsed), StatsReply(stats)]))
      ensures old(sam) != null && thrown.Some? ==>
        stats == old(stats) && posted == [] && sam.imageEncoded == old(sam.imageEncoded)
    {
      if sam == null {
        return [], Some(NullReference("sam"));
      }
      RegisteredDescriptor(sam.modelConfig);
      var tensorData, tensorShape := PrepareEncoderInput(sam.modelConfig, float32Array, shape);
      var imgTensor := NewTensor(tensorData, tensorShape);
      if imgTensor.Throw? {
        return [], Some(imgTensor.error);
      }
      var r := sam.EncodeImage(imgTensor.value, engine);
      if r.Throw? {
        return [], Some(r.error);
      }
      stats := stats.(encodeImageTimes := stats.encodeImageTimes + [elapsed]);
      posted, thrown := [EncodeImageDone(elapsed), StatsReply(stats)], None;
    }

    /** The `decodeMask` branch: builds the mask tensor when a mask array is
        given, decodes the prompt and records the decoding time. A refused
        mask, a missing engine or encoding, a session that cannot be opened
        and a rejected run each throw and record nothing. */
    method HandleDecodeMask(points: seq<Point>, maskArray: Option<seq<real>>, maskShape: Option<seq<int>>,
                            elapsed: real, engine: Engine)
      returns (posted: seq<Reply>, thrown: Option<Error>)
      requires Valid()
      modifies this, sam
      ensures Valid() && sam == old(sam)
      ensures thrown.Some? ==> stats == old(stats) && posted == []
      ensures MaskTensor(maskArray, maskShape).Throw? ==>
        thrown == Some(InvalidTensor) && (sam != null ==> unchanged(sam))
      ensures MaskTensor(maskArray, maskShape).Ok? && old(sam) == null ==> thrown == Some(NullReference("sam"))
      ensures old(sam) != null ==>
        sam.bufferEncoder == old(sam.bufferEncoder) && sam.bufferDecoder == old(sam.bufferDecoder) &&
        sam.sessionEncoder == old(sam.sessionEncoder) && sam.imageEncoded == old(sam.imageEncoded)
      ensures old(sam) != null && MaskTensor(maskArray, maskShape).Ok? ==>
        sam.sessionDecoder == Memoised(old(sam.sessionDecoder), engine, sam.bufferDecoder) &&
        (sam.sessionDecoder.None? ==> thrown == Some(NoBackendAvailable)) &&
        (sam.sessionDecoder.Some? && sam.imageEncoded.None? ==> thrown == Some(NullReference("image_encoded"))) &&
        (sam.sessionDecoder.Some? && sam.imageEncoded.Some? ==>
           var run := engine.decode(sam.sessionDecoder.value.session,
                        DecoderFeeds(sam.modelType, sam.modelConfig.imageSize, sam.imageEncoded.value,
                                     points, MaskTensor(maskArray, maskShape).value));
           (run.Throw? ==> thrown == Some(run.error)) &&
           (run.Ok? ==>
              thrown.None? &&
              stats == old(stats).(decodeTimes := old(stats.decodeTimes) + [elapsed]) &&
              posted == [DecodeMaskResult(run.value), StatsReply(stats)]))
    {
      var maskTensor := MaskTensor(maskArray, maskShape);
      if maskTensor.Throw? {
        return [], Some(maskTensor.error);
      }
      if sam == null {
        return [], Some(NullReference("sam"));
      }
      var decodingResults := sam.Decode(points, maskTensor.value, engine);
      if decodingResults.Throw? {
        return [], Some(decodingResults.error);
      }
      stats := stats.(decodeTimes := stats.decodeTimes + [elapsed]);
      posted, thrown := [DecodeMaskResult(decodingResults.value), StatsReply(stats)], None;
    }

    /** `self.onmessage`: handles one message, given the time its timed step
        takes, and returns the replies posted, in order, and the exception
        that escapes, if any. Each branch keeps the contract of its
        handler. */
    method OnMessage(msg: Message, elapsed: real, store: Storage, net: Network, engine: Engine)
      returns (posted: seq<Reply>, thrown: Option<Error>)
      requires Valid()
      requires msg.EncodeImage? ==> ImageTensor(msg.float32Array, msg.shape)
      modifies this, sam, store, net
      ensures Valid()
      // ping: a fresh engine for the selected model, its files downloaded and
      // its sessions opened; the download time is recorded whether or not a
      // session can be opened
      ensures msg.Ping? ==>
        sam != null && fresh(sam) && sam.modelConfig == PingDescriptor(msg.modelId) &&
        (var o := ModelDownloads(old(store.files), sam.modelConfig, net.responses, store.writeSucceeds);
         sam.bufferEncoder == o.encoder && sam.bufferDecoder == o.decoder &&
         store.files == o.files && net.requested == old(net.requested) + o.fetched) &&
        sam.sessionEncoder == Opened(FirstSession(engine, sam.bufferEncoder, ExecutionProviders)) &&
        sam.sessionDecoder ==
          (if sam.sessionEncoder.Some? then Opened(FirstSession(engine, sam.bufferDecoder, ExecutionProviders)) else None) &&
        sam.imageEncoded.None? &&
        stats.modelId == Some(SelectedModelId(msg.modelId)) &&
        stats.downloadModelsTime == old(stats.downloadModelsTime) + [elapsed] &&
        stats.encodeImageTimes == old(stats.encodeImageTimes) &&
        stats.decodeTimes == old(stats.decodeTimes) &&
        (thrown.None? <==> sam.sessionEncoder.Some? && sam.sessionDecoder.Some?) &&
        (thrown.None? ==>
           stats.device == DeviceName(Some(sam.sessionEncoder.value.ep)) &&
           posted == [DownloadInProgress, LoadingInProgress,
                      Pong(Report(true, Some(sam.sessionEncoder.value.ep))), StatsReply(stats)]) &&
        (thrown.Some? ==>
           thrown == Some(NoBackendAvailable) && stats.device == old(stats.device) &&
           posted == [DownloadInProgress, LoadingInProgress])
      // encodeImage: needs an engine; the prepared tensor is encoded and one
      // time recorded, or the branch throws, records nothing and keeps the
      // previous encoding
      ensures msg.EncodeImage? && old(sam) == null ==>
        sam == null && stats == old(stats) && posted == [] && thrown == Some(NullReference("sam"))
      ensures msg.EncodeImage? && old(sam) != null ==>
        sam == old(sam) &&
        sam.bufferEncoder == old(sam.bufferEncoder) && sam.bufferDecoder == old(sam.bufferDecoder) &&
        sam.sessionDecoder == old(sam.sessionDecoder) &&
        (EncoderTensor(sam.modelConfig, msg.float32Array, msg.shape).Throw? ==>
           thrown == Some(InvalidTensor) && sam.sessionEncoder == old(sam.sessionEncoder)) &&
        (EncoderTensor(sam.modelConfig, msg.float32Array, msg.shape).Ok? ==>
           sam.sessionEncoder == Memoised(old(sam.sessionEncoder), engine, sam.bufferEncoder) &&
           (sam.sessionEncoder.None? ==> thrown == Some(NoBackendAvailable)) &&
           (sam.sessionEncoder.Some? ==>
              var run := engine.encode(sam.sessionEncoder.value.session, sam.modelConfig.encoderInputName,
                                       EncoderTensor(sam.modelConfig, msg.float32Array, msg.shape).value);
              (run.Throw? ==> thrown == Some(run.error)) &&
              (run.Ok? ==>
                 thrown.None? && sam.imageEncoded == Bind(sam.modelType, run.value, old(sam.imageEncoded)) &&
                 stats == old(stats).(encodeImageTimes := old(stats.encodeImageTimes) + [elapsed]) &&
                 posted == [EncodeImageDone(elapsed), StatsReply(stats)]))) &&
        (thrown.Some? ==> stats == old(stats) && posted == [] && sam.imageEncoded == old(sam.imageEncoded))
      // decodeMask: the mask tensor is built first; then the engine decodes
      // the prompt and one time is recorded, or the branch throws and records
      // nothing; the encoding is never changed
      ensures msg.DecodeMask? ==>
        sam == old(sam) && (thrown.Some? ==> stats == old(stats) && posted == [])
      ensures msg.DecodeMask? && MaskTensor(msg.maskArray, msg.maskShape).Throw? ==>
        thrown == Some(InvalidTensor) && (sam != null ==> unchanged(sam))
      ensures msg.DecodeMask? && MaskTensor(msg.maskArray, msg.maskShape).Ok? && old(sam) == null ==>
        thrown == Some(NullReference("sam"))
      ensures msg.DecodeMask? && old(sam) != null ==>
        sam.bufferEncoder == old(sam.bufferEncoder) && sam.bufferDecoder == old(sam.bufferDecoder) &&
        sam.sessionEncoder == old(sam.sessionEncoder) && sam.imageEncoded == old(sam.imageEncoded)
      ensures msg.DecodeMask? && old(sam) != null && MaskTensor(msg.maskArray, msg.maskShape).Ok? ==>
        sam.sessionDecoder == Memoised(old(sam.sessionDecoder), engine, sam.bufferDecoder) &&
        (sam.sessionDecoder.None? ==> thrown == Some(NoBackendAvailable)) &&
        (sam.sessionDecoder.Some? && sam.imageEncoded.None? ==> thrown == Some(NullReference("image_encoded"))) &&
        (sam.sessionDecoder.Some? && sam.imageEncoded.Some? ==>
           var run := engine.decode(sam.sessionDecoder.value.session,
                        DecoderFeeds(sam.modelType, sam.modelConfig.imageSize, sam.imageEncoded.value,
                                     msg.points, MaskTensor(msg.maskArray, msg.maskShape).value));
           (run.Throw? ==> thrown == Some(run.error)) &&
           (run.Ok? ==>
              thrown.None? &&
              stats == old(stats).(decodeTimes := old(stats.decodeTimes) + [elapsed]) &&
              posted == [DecodeMaskResult(run.value), StatsReply(stats)]))
      // a stats request changes nothing
      ensures msg.StatsRequest? ==>
        sam == old(sam) && (sam != null ==> unchanged(sam)) && stats == old(stats) &&
        posted == [StatsReply(stats)] && thrown.None?
      // any other type throws and changes nothing
      ensures msg.Other? ==>
        sam == old(sam) && (sam != null ==> unchanged(sam)) && stats == old(stats) &&
        posted == [] && thrown == Some(UnknownMessageType(msg.kind))
    {
      match msg
      case Ping(modelId) =>
        posted, thrown := HandlePing(modelId, elapsed, store, net, engine);
      case EncodeImage(float32Array, shape) =>
        posted, thrown := HandleEncodeImage(float32Array, shape, elapsed, engine);
      case DecodeMask(points, maskArray, maskShape) =>
        posted, thrown := HandleDecodeMask(points, maskArray, maskShape, elapsed, engine);
      case StatsRequest =>
        posted, thrown := [StatsReply(stats)], None;
      case Other(kind) =>
        posted, thrown := [], Some(UnknownMessageType(kind));
    }
  }
}
