/** Geometry and pixel-buffer helpers (lib/imageutils.js). Canvases are
    abstracted to their RGBA pixel data: four bytes per pixel, row by row. */
module ImageUtils {
  import opened Common

  /** A placement rectangle. The padding offsets are whole pixels; the scaled
      extent is fractional. */
  datatype Box = Box(x: int, y: int, w: real, h: real)

  /** `resizeAndPadBox`: where to draw a source of size `source` inside a
      target of size `target` so that it keeps its aspect ratio and is
      centred along its shorter side. */
  function ResizeAndPadBox(source: Size, target: Size): (b: Box)
    // a square source fills the target
    ensures source.h == source.w ==> b == Box(0, 0, target.w as real, target.h as real)
    // otherwise the box spans one side of the target and is centred along the other
    ensures source.h > source.w ==> b.y == 0 && b.h == target.h as real
    ensures source.h < source.w ==> b.x == 0 && b.w == target.w as real
  {
    if source.h == source.w then
      Box(0, 0, target.w as real, target.h as real)
    else if source.h > source.w then
      var newW := (source.w as real / source.h as real) * target.w as real;
      Box(Padding(target.w, newW), 0, newW, target.h as real)
    else
      var newH := (source.h as real / source.w as real) * target.h as real;
      Box(0, Padding(target.h, newH), target.w as real, newH)
  }

  /** The offset that centres an extent `e` within a length `t`: half the
      slack, floored. */
  function Padding(t: nat, e: real): int
  {
    ((t as real - e) / 2.0).Floor
  }

  /** Flooring half the slack centres the extent: the offset is never
      negative, the extent fits, and the two margins differ by less than two
      pixels. */
  lemma PaddingCentres(t: nat, e: real)
    requires 0.0 <= e <= t as real
    ensures var p := Padding(t, e);
      0 <= p && p as real + e <= t as real &&
      p as real <= t as real - e - p as real < p as real + 2.0
  {
  }

  /** A portrait source spans the target's height, keeps its aspect ratio
      and is centred horizontally. */
  lemma PortraitBox(source: Size, target: Size)
    requires source.h > source.w
    ensures var b := ResizeAndPadBox(source, target);
      b.w * (source.h as real) == (source.w as real) * (target.w as real) &&
      0 <= b.x && b.x as real + b.w <= target.w as real &&
      b.x as real <= target.w as real - b.w - b.x as real < b.x as real + 2.0
  {
    var e := (source.w as real / source.h as real) * target.w as real;
    assert ResizeAndPadBox(source, target) == Box(Padding(target.w, e), 0, e, target.h as real);
    ScaledExtent(source.w, source.h, target.w, e);
    PaddingCentres(target.w, e);
  }

  /** A landscape source spans the target's width, keeps its aspect ratio
      and is centred vertically. */
  lemma LandscapeBox(source: Size, target: Size)
    requires source.h < source.w
    ensures var b := ResizeAndPadBox(source, target);
      b.h * (source.w as real) == (source.h as real) * (target.h as real) &&
      0 <= b.y && b.y as real + b.h <= target.h as real &&
      b.y as real <= target.h as real - b.h - b.y as real < b.y as real + 2.0
  {
    var e := (source.h as real / source.w as real) * target.h as real;
    assert ResizeAndPadBox(source, target) == Box(0, Padding(target.h, e), target.w as real, e);
    ScaledExtent(source.h, source.w, target.h, e);
    PaddingCentres(target.h, e);
  }

  /** In a square target the box has the source's aspect ratio. */
  lemma SquareTargetKeepsAspect(source: Size, target: Size)
    requires target.w == target.h
    ensures var b := ResizeAndPadBox(source, target);
      b.w * (source.h as real) == b.h * (source.w as real)
  {
    if source.h > source.w {
      PortraitBox(source, target);
    } else if source.h < source.w {
      LandscapeBox(source, target);
    }
  }

  /** Scaling `t` by `short / long` gives a length between 0 and `t` whose
      ratio to `t` is that of `short` to `long`. */
  lemma ScaledExtent(short: nat, long: nat, t: nat, e: real)
    requires short < long && e == (short as real / long as real) * t as real
    ensures 0.0 <= e <= t as real && e * (long as real) == (short as real) * (t as real)
  {
    var q := short as real / long as real;
    assert 0.0 <= q < 1.0;
    assert q * (long as real) == short as real;
    assert (t as real) - e == (1.0 - q) * (t as real);
    NonNegativeProduct(1.0 - q, t as real);
    assert e * (long as real) == (q * (long as real)) * (t as real);
  }

  lemma NonNegativeProduct(a: real, b: real)
    requires a >= 0.0 && b >= 0.0
    ensures a * b >= 0.0
  {
  }

  /** `sliceTensor`: the `index`-th contiguous block of `width * height`
      elements of a tensor with dimensions `[B, N, width, height]`. Like the
      typed-array `slice` it uses, it clamps a block that runs past the end. */
  function SliceTensor(tensor: Tensor, index: nat): (r: seq<real>)
    requires |tensor.dims| >= 4 && tensor.dims[2] >= 0 && tensor.dims[3] >= 0
    ensures var stride := tensor.dims[2] * tensor.dims[3];
      |r| <= stride &&
      (|r| > 0 ==> index * stride + |r| <= |tensor.data|) &&
      (forall k :: 0 <= k < |r| ==> r[k] == tensor.data[index * stride + k])
  {
    var stride := tensor.dims[2] * tensor.dims[3];
    var start := index * stride;
    var end := start + stride;
    NextPlane(index, stride);
    tensor.data[Min(start, |tensor.data|)..Min(end, |tensor.data|)]
  }

  /** A block that lies inside the data is exactly that block of the data. */
  lemma SliceTensorWhole(tensor: Tensor, index: nat)
    requires |tensor.dims| >= 4 && tensor.dims[2] >= 0 && tensor.dims[3] >= 0
    requires index * (tensor.dims[2] * tensor.dims[3]) + tensor.dims[2] * tensor.dims[3] <= |tensor.data|
    ensures var stride := tensor.dims[2] * tensor.dims[3];
      SliceTensor(tensor, index) == tensor.data[index * stride .. index * stride + stride]
  {
    NextPlane(index, tensor.dims[2] * tensor.dims[3]);
  }

  /** A block that lies inside the data is sliced whole; one that runs past
      the end is cut at the end; one that starts past the end is empty. */
  lemma SliceTensorLength(tensor: Tensor, index: nat)
    requires |tensor.dims| >= 4 && tensor.dims[2] >= 0 && tensor.dims[3] >= 0
    ensures var stride := tensor.dims[2] * tensor.dims[3];
      var r := SliceTensor(tensor, index);
      ((index + 1) * stride <= |tensor.data| ==> |r| == stride) &&
      (index * stride < |tensor.data| ==> |r| == Min(stride, |tensor.data| - index * stride)) &&
      (index * stride >= |tensor.data| ==> r == [])
  {
    NextPlane(index, tensor.dims[2] * tensor.dims[3]);
  }

  /** A canvas as far as the core sees it: its size and its RGBA pixel data. */
  datatype Canvas = Canvas(width: nat, height: nat, data: Bytes) {
    /** `getImageData` yields four bytes for each pixel. */
    predicate Valid() {
      |data| == 4 * (width * height)
    }
  }

  /** The RGBA bytes drawn for one mask value: the highlight colour 0x32cd32,
      fully opaque, where the value is positive; transparent black elsewhere. */
  function MaskPixel(v: real): seq<byte> {
    if v > 0.0 then [0x32, 0xcd, 0x32, 255] else [0, 0, 0, 0]
  }

  /** The pixel data of the canvas that `float32ArrayToCanvas` draws for
      `mask`, one pixel per mask value, in order. */
  function MaskImageData(mask: seq<real>): (rgba: Bytes)
    ensures |rgba| == 4 * |mask|
  {
    if mask == [] then [] else MaskImageData(mask[..|mask| - 1]) + MaskPixel(mask[|mask| - 1])
  }

  /** Byte `c` of pixel `i` of the mask image is byte `c` of the colour
      chosen for `mask[i]`. */
  lemma {:induction false} MaskImageDataAt(mask: seq<real>, i: nat, c: nat)
    requires i < |mask| && c < 4
    ensures MaskImageData(mask)[4 * i + c] == MaskPixel(mask[i])[c]
  {
    var init := mask[..|mask| - 1];
    if i < |mask| - 1 {
      MaskImageDataAt(init, i, c);
      assert init[i] == mask[i];
    }
  }

  /** The four bytes of pixel `i` of the mask image. */
  lemma MaskPixelBytes(mask: seq<real>, i: nat)
    requires i < |mask|
    ensures var rgba := MaskImageData(mask);
      rgba[4 * i] == (if mask[i] > 0.0 then 0x32 else 0) &&
      rgba[4 * i + 1] == (if mask[i] > 0.0 then 0xcd else 0) &&
      rgba[4 * i + 2] == (if mask[i] > 0.0 then 0x32 else 0) &&
      rgba[4 * i + 3] == (if mask[i] > 0.0 then 255 else 0)
  {
    MaskImageDataAt(mask, i, 0);
    MaskImageDataAt(mask, i, 1);
    MaskImageDataAt(mask, i, 2);
    MaskImageDataAt(mask, i, 3);
  }

  /** The loop of `float32ArrayToCanvas`: fills a fresh RGBA buffer pixel by
      pixel, then wraps it in a `width` x `height` canvas (constructing the
      image data requires exactly `width * height` mask values). */
  method Float32ArrayToCanvas(values: seq<real>, width: nat, height: nat) returns (canvas: Canvas)
    requires |values| == width * height
    ensures canvas.Valid()
    ensures canvas == Canvas(width, height, MaskImageData(values))
  {
    var imageData := new byte[|values| * 4](_ => 0);
    ghost var spec := MaskImageData(values);
    for srcIdx := 0 to |values|
      invariant forall k :: 0 <= k < 4 * srcIdx ==> imageData[k] == spec[k]
    {
      var trgIdx := srcIdx * 4;
      var maskedPx := values[srcIdx] > 0.0;
      MaskPixelBytes(values, srcIdx);
      imageData[trgIdx] := if maskedPx then 0x32 else 0;
      imageData[trgIdx + 1] := if maskedPx then 0xcd else 0;
      imageData[trgIdx + 2] := if maskedPx then 0x32 else 0;
      imageData[trgIdx + 3] := if maskedPx then 255 else 0;
    }
    canvas := Canvas(width, height, imageData[..]);
  }

  /** The channel-major float data `canvasToFloat32Array` builds from `n`
      RGBA pixels: all red values, then all green, then all blue, each
      divided by 255. */
  function PlanarRgb(rgba: Bytes, n: nat): (r: seq<real>)
    requires 4 * n <= |rgba|
    ensures |r| == 3 * n
    ensures forall k :: 0 <= k < |r| ==> 0.0 <= r[k] <= 1.0
  {
    seq(3 * n, k requires 0 <= k < 3 * n =>
      (if k < n then rgba[4 * k]
       else if k < 2 * n then rgba[4 * (k - n) + 1]
       else rgba[4 * (k - 2 * n) + 2]) as real / 255.0)
  }

  /** Element `c * n + i` of the planar data is channel `c` of pixel `i`. */
  lemma PlanarRgbAt(rgba: Bytes, n: nat, c: nat, i: nat)
    requires 4 * n <= |rgba| && c < 3 && i < n
    ensures c * n + i < 3 * n
    ensures PlanarRgb(rgba, n)[c * n + i] == rgba[4 * i + c] as real / 255.0
  {
    if c == 0 {
      assert c * n + i == i;
    } else if c == 1 {
      assert c * n + i == n + i;
    } else {
      assert c * n + i == 2 * n + i;
    }
  }

  /** The three planar values of pixel `i`, at `i`, `n + i` and `2n + i`. */
  lemma PlanarRgbPixel(rgba: Bytes, n: nat, i: nat)
    requires 4 * n <= |rgba| && i < n
    ensures PlanarRgb(rgba, n)[i] == rgba[4 * i] as real / 255.0
    ensures PlanarRgb(rgba, n)[i + n] == rgba[4 * i + 1] as real / 255.0
    ensures PlanarRgb(rgba, n)[i + 2 * n] == rgba[4 * i + 2] as real / 255.0
  {
    var r := PlanarRgb(rgba, n);
    assert r[n + i] == rgba[4 * (n + i - n) + 1] as real / 255.0;
    assert r[2 * n + i] == rgba[4 * (2 * n + i - 2 * n) + 2] as real / 255.0;
  }

  /** Alpha never influences the planar data: two images that agree on
      every red, green and blue byte give the same floats. */
  lemma AlphaIgnored(a: Bytes, b: Bytes, n: nat)
    requires 4 * n <= |a| && 4 * n <= |b|
    requires forall k :: 0 <= k < 4 * n && k % 4 != 3 ==> a[k] == b[k]
    ensures PlanarRgb(a, n) == PlanarRgb(b, n)
  {
    forall k | 0 <= k < 3 * n
      ensures PlanarRgb(a, n)[k] == PlanarRgb(b, n)[k]
    {
      var i := if k < n then k else if k < 2 * n then k - n else k - 2 * n;
      PlanarRgbPixel(a, n, i);
      PlanarRgbPixel(b, n, i);
      DivModOf(i, 4, 0);
      DivModOf(i, 4, 1);
      DivModOf(i, 4, 2);
    }
  }

  /** Nothing but alpha is lost: two fully opaque images of `n` pixels with
      the same planar data are the same image. */
  lemma PlanarRgbLossless(a: Bytes, b: Bytes, n: nat)
    requires |a| == 4 * n && |b| == 4 * n
    requires forall i :: 0 <= i < n ==> a[4 * i + 3] == 255 && b[4 * i + 3] == 255
    requires PlanarRgb(a, n) == PlanarRgb(b, n)
    ensures a == b
  {
    forall k | 0 <= k < 4 * n
      ensures a[k] == b[k]
    {
      var i, c := k / 4, k % 4;
      assert k == 4 * i + c;
      if c < 3 {
        PlanarRgbAt(a, n, c, i);
        PlanarRgbAt(b, n, c, i);
      }
    }
  }

  /** `canvasToFloat32Array`: the canvas's pixels as a `[1, 3, height, width]`
      channel-major tensor with values in [0, 1], alpha dropped. */
  method CanvasToFloat32Array(canvas: Canvas) returns (float32Array: seq<real>, shape: seq<int>)
    requires canvas.Valid()
    ensures shape == [1, 3, canvas.height, canvas.width]
    ensures float32Array == PlanarRgb(canvas.data, canvas.height * canvas.width)
  {
    var imageData := canvas.data;
    var width, height := canvas.width, canvas.height;
    var channelSize := height * width;
    var out := new real[3 * channelSize](_ => 0.0);
    ghost var planar := PlanarRgb(imageData, channelSize);
    for i := 0 to channelSize
      invariant forall k :: 0 <= k < i ==> out[k] == planar[k]
      invariant forall k :: channelSize <= k < channelSize + i ==> out[k] == planar[k]
      invariant forall k :: 2 * channelSize <= k < 2 * channelSize + i ==> out[k] == planar[k]
    {
      var idx := i * 4;
      PlanarRgbPixel(imageData, channelSize, i);
      out[i] := imageData[idx] as real / 255.0;
      out[i + channelSize] := imageData[idx + 1] as real / 255.0;
      out[i + 2 * channelSize] := imageData[idx + 2] as real / 255.0;
    }
    float32Array := out[..];
    shape := [1, 3, height, width];
  }

  /** The mask value `maskCanvasToFloat32Array` reads back from pixel `i`:
      the mean of its red, green and blue bytes, scaled to [0, 1]. */
  function RgbMean(rgba: Bytes, i: nat): (v: real)
    requires 4 * i + 2 < |rgba|
    ensures 0.0 <= v <= 1.0
    ensures v > 0.0 <==> (rgba[4 * i] != 0 || rgba[4 * i + 1] != 0 || rgba[4 * i + 2] != 0)
  {
    (rgba[4 * i] as real + rgba[4 * i + 1] as real + rgba[4 * i + 2] as real) / (3.0 * 255.0)
  }

  /** One mask value per pixel of `n` RGBA pixels. */
  function MaskFromImageData(rgba: Bytes, n: nat): (mask: seq<real>)
    requires 4 * n <= |rgba|
    ensures |mask| == n
  {
    seq(n, i requires 0 <= i < n => RgbMean(rgba, i))
  }

  /** `maskCanvasToFloat32Array`: a `[1, 1, width, height]` mask with one
      value per pixel. */
  method MaskCanvasToFloat32Array(canvas: Canvas) returns (float32Array: seq<real>)
    requires canvas.Valid()
    ensures float32Array == MaskFromImageData(canvas.data, canvas.width * canvas.height)
    ensures forall i :: 0 <= i < |float32Array| ==> 0.0 <= float32Array[i] <= 1.0
  {
    var shape := [1, 1, canvas.width, canvas.height];
    var out := new real[shape[1] * shape[2] * shape[3]](_ => 0.0);
    assert out.Length == canvas.width * canvas.height;
    for i := 0 to out.Length
      invariant forall j :: 0 <= j < i ==> out[j] == RgbMean(canvas.data, j)
    {
      var idx := i * 4;
      out[i] := (canvas.data[idx] as real + canvas.data[idx + 1] as real + canvas.data[idx + 2] as real) / (3.0 * 255.0);
    }
    float32Array := out[..];
  }

  /** Thresholding a mask into an image and reading the image back as a mask
      (at the same size) keeps exactly the positive pixels positive. */
  lemma MaskThresholdRoundTrip(mask: seq<real>)
    ensures var back := MaskFromImageData(MaskImageData(mask), |mask|);
      |back| == |mask| &&
      forall i :: 0 <= i < |mask| ==> (back[i] > 0.0 <==> mask[i] > 0.0)
  {
    var img := MaskImageData(mask);
    forall i | 0 <= i < |mask|
      ensures RgbMean(img, i) > 0.0 <==> mask[i] > 0.0
    {
      MaskImageDataAt(mask, i, 0);
      MaskImageDataAt(mask, i, 1);
      MaskImageDataAt(mask, i, 2);
    }
  }
}
