/** The prompt logic of the demo page (app/SAMDemo.jsx): turning clicks into
    prompt points, choosing the best of the decoded masks, and the two ways
    the prompt state is reset. Rendering, status text and the loading flag
    are not part of the model. */
module SamDemo {
  import opened Common
  import opened ModelConfig
  import opened ImageUtils
  import SamWorker

  // ---------------------------------------------------------------------
  // Clicks
  // ---------------------------------------------------------------------

  /** A click on the displayed canvas: the pointer position, the top-left
      corner of the canvas element's bounding rectangle, the canvas's pixel
      size and the mouse button pressed. */
  datatype Click = Click(clientX: real, clientY: real, left: real, top: real,
                         canvasWidth: nat, canvasHeight: nat, button: int)

  /** The prompt point for a click: the offset into the canvas rescaled to
      the model's input size; the main button marks the object (label 1),
      any other button the background (label 0). */
  function ClickPoint(click: Click, imageSize: Size): (p: Point)
    requires click.canvasWidth > 0 && click.canvasHeight > 0
  {
    Point((click.clientX - click.left) / click.canvasWidth as real * imageSize.w as real,
          (click.clientY - click.top) / click.canvasHeight as real * imageSize.h as real,
          if click.button == 0 then 1 else 0)
  }

  /** An offset `0 <= d <= extent` rescaled to `size` lands in `[0, size]`. */
  lemma RescaledWithin(d: real, extent: real, size: real)
    requires extent > 0.0 && size >= 0.0 && 0.0 <= d <= extent
    ensures 0.0 <= d / extent * size <= size
  {
    var r := d / extent;
    assert r * extent == d;
    assert 0.0 <= r <= 1.0;
    assert r * size <= 1.0 * size;
  }

  /** A click inside the canvas gives a point inside the model's input image,
      labelled 1 exactly for the main button. */
  lemma ClickPointInImage(click: Click, imageSize: Size)
    requires click.canvasWidth > 0 && click.canvasHeight > 0
    requires 0.0 <= click.clientX - click.left <= click.canvasWidth as real
    requires 0.0 <= click.clientY - click.top <= click.canvasHeight as real
    ensures var p := ClickPoint(click, imageSize);
      0.0 <= p.x <= imageSize.w as real && 0.0 <= p.y <= imageSize.h as real &&
      (p.pointLabel == 1 <==> click.button == 0) && (p.pointLabel == 0 <==> click.button != 0)
  {
    RescaledWithin(click.clientX - click.left, click.canvasWidth as real, imageSize.w as real);
    RescaledWithin(click.clientY - click.top, click.canvasHeight as real, imageSize.h as real);
  }

  // ---------------------------------------------------------------------
  // The best mask
  // ---------------------------------------------------------------------

  /** The index the best-mask loop settles on: the first position holding
      the largest score, and 0 for no scores. */
  function FirstMaxIndex(scores: seq<real>): (k: nat)
    ensures |scores| > 0 ==> k < |scores|
    ensures |scores| == 0 ==> k == 0
  {
    if |scores| <= 1 then 0
    else
      var k := FirstMaxIndex(scores[..|scores| - 1]);
      if scores[|scores| - 1] > scores[k] then |scores| - 1 else k
  }

  /** The chosen score is at least every score, and strictly larger than
      every score before it. */
  lemma {:induction false} FirstMaxIndexIsFirstMax(scores: seq<real>)
    requires |scores| > 0
    ensures forall i :: 0 <= i < |scores| ==> scores[i] <= scores[FirstMaxIndex(scores)]
    ensures forall i :: 0 <= i < FirstMaxIndex(scores) ==> scores[i] < scores[FirstMaxIndex(scores)]
    decreases |scores|
  {
    if |scores| > 1 {
      var init := scores[..|scores| - 1];
      FirstMaxIndexIsFirstMax(init);
      assert forall i :: 0 <= i < |init| ==> init[i] == scores[i];
    }
  }

  /** Only one index can be both a maximum and strictly above everything
      before it. */
  lemma FirstMaxUnique(scores: seq<real>, a: nat, b: nat)
    requires a < |scores| && b < |scores|
    requires forall i :: 0 <= i < |scores| ==> scores[i] <= scores[a] && scores[i] <= scores[b]
    requires forall i :: 0 <= i < a ==> scores[i] < scores[a]
    requires forall i :: 0 <= i < b ==> scores[i] < scores[b]
    ensures a == b
  {
    assert scores[a] == scores[b];
  }

  /** The loop of `handleDecodingResults` that picks the mask with the
      highest predicted IoU. The running best starts below every score
      (`-Infinity`, here `None`) and is replaced only by a strictly larger
      score. */
  method BestMaskIndex(maskScores: seq<real>) returns (bestMaskIdx: nat)
    ensures bestMaskIdx == FirstMaxIndex(maskScores)
    ensures |maskScores| == 0 ==> bestMaskIdx == 0
    ensures |maskScores| > 0 ==>
      bestMaskIdx < |maskScores| &&
      (forall i :: 0 <= i < |maskScores| ==> maskScores[i] <= maskScores[bestMaskIdx]) &&
      (forall i :: 0 <= i < bestMaskIdx ==> maskScores[i] < maskScores[bestMaskIdx])
  {
    bestMaskIdx := 0;
    var bestScore: Option<real> := None;
    for i := 0 to |maskScores|
      invariant bestScore.None? <==> i == 0
      invariant bestScore.None? ==> bestMaskIdx == 0
      invariant bestScore.Some? ==>
        bestMaskIdx == FirstMaxIndex(maskScores[..i]) && bestScore.value == maskScores[bestMaskIdx]
    {
      if bestScore.None? || maskScores[i] > bestScore.value {
        bestScore := Some(maskScores[i]);
        bestMaskIdx := i;
      }
      assert maskScores[..i + 1][..i] == maskScores[..i];
    }
    assert maskScores[..|maskScores|] == maskScores;
    if |maskScores| > 0 {
      FirstMaxIndexIsFirstMax(maskScores);
    }
  }

  /** A decoder result the page can read: `[B, N, width, height]` masks with
      at least one mask, at most one score per mask, and data for every
      mask. */
  predicate MaskOutput(result: MaskResult) {
    var dims := result.masks.dims;
    |dims| == 4 && dims[1] >= 1 && dims[2] >= 0 && dims[3] >= 0 &&
    |result.iouPredictions| <= dims[1] &&
    dims[1] * (dims[2] * dims[3]) <= |result.masks.data|
  }

  /** Block `b` of `n` blocks of `stride` values lies inside data that
      holds all `n` blocks. */
  lemma BlockFits(b: nat, n: nat, stride: nat, len: nat)
    requires b < n && n * stride <= len
    ensures b * stride + stride <= len
  {
    MulLe(b + 1, n, stride);
  }

  /** The values of the best mask: the `b`-th block of `dims[2]·dims[3]`
      values, where `b` is the first index of a highest score. */
  function BestMask(result: MaskResult): (mask: seq<real>)
    requires MaskOutput(result)
    ensures |mask| == result.masks.dims[2] * result.masks.dims[3]
    ensures var b, stride := FirstMaxIndex(result.iouPredictions), result.masks.dims[2] * result.masks.dims[3];
      b * stride + stride <= |result.masks.data| &&
      mask == result.masks.data[b * stride .. b * stride + stride]
  {
    var best := FirstMaxIndex(result.iouPredictions);
    var stride := result.masks.dims[2] * result.masks.dims[3];
    assert best < result.masks.dims[1];
    BlockFits(best, result.masks.dims[1], stride, |result.masks.data|);
    SliceTensorWhole(result.masks, best);
    SliceTensor(result.masks, best)
  }

  /** The best mask drawn as a `dims[2]` x `dims[3]` canvas. */
  function BestMaskCanvas(result: MaskResult): (canvas: Canvas)
    requires MaskOutput(result)
    ensures canvas.Valid()
  {
    Canvas(result.masks.dims[2], result.masks.dims[3], MaskImageData(BestMask(result)))
  }

  /** `resizeCanvas`, as a given function: it yields a canvas of the
      requested size. */
  ghost predicate ResizesTo(resize: (Canvas, Size) -> Canvas) {
    forall c: Canvas, s: Size {:trigger resize(c, s)} ::
      c.Valid() ==> resize(c, s).Valid() && resize(c, s).width == s.w && resize(c, s).height == s.h
  }

  /** With no resampling, the stored refinement mask is positive exactly
      where the best mask is. */
  lemma RefinementMaskKeepsBestMask(result: MaskResult)
    requires MaskOutput(result)
    ensures var c := BestMaskCanvas(result);
      var back := MaskFromImageData(c.data, c.width * c.height);
      |back| == |BestMask(result)| &&
      forall i :: 0 <= i < |back| ==> (back[i] > 0.0 <==> BestMask(result)[i] > 0.0)
  {
    MaskThresholdRoundTrip(BestMask(result));
  }

  // ---------------------------------------------------------------------
  // The prompt state
  // ---------------------------------------------------------------------

  /** The page's prompt state: the selected model, the accumulated points,
      the loaded image, the displayed mask, the mask kept for refinement and
      whether the current image has been encoded. */
  class PromptState {
    var selectedModel: string
    var points: seq<Point>
    var image: Option<Canvas>
    var mask: Option<Canvas>
    var prevMaskArray: Option<seq<real>>
    var imageEncoded: bool

    /** The selected model is one the selector offers: a registered one. */
    predicate Valid()
      reads this
    {
      selectedModel in ModelTable
    }

    /** `MODEL_CONFIGS[selectedModel]`. */
    function Config(): Descriptor
      reads this
      requires Valid()
    {
      ModelTable[selectedModel]
    }

    constructor()
      ensures Valid() && selectedModel == DefaultModel
      ensures points == [] && image == None && mask == None && prevMaskArray == None && !imageEncoded
    {
      selectedModel := DefaultModel;
      points := [];
      image := None;
      mask := None;
      prevMaskArray := None;
      imageEncoded := false;
    }

    /** `imageClick`: ignored until the image is encoded; afterwards appends
        the click's point and asks the worker to decode all points so far,
        with the previous mask as a `[1, 1, h, w]` input when there is one. */
    method ImageClick(click: Click) returns (request: Option<SamWorker.Message>)
      requires Valid() && click.canvasWidth > 0 && click.canvasHeight > 0
      modifies this
      ensures Valid() && selectedModel == old(selectedModel)
      ensures image == old(image) && mask == old(mask)
      ensures prevMaskArray == old(prevMaskArray) && imageEncoded == old(imageEncoded)
      ensures !old(imageEncoded) ==> points == old(points) && request == None
      ensures old(imageEncoded) ==> points == old(points) + [ClickPoint(click, Config().imageSize)]
      ensures old(imageEncoded) ==>
        request.Some? && request.value.DecodeMask? &&
        request.value.points == points && request.value.maskArray == prevMaskArray &&
        (request.value.maskShape.Some? <==> prevMaskArray.Some?) &&
        (prevMaskArray.Some? ==>
           request.value.maskShape.value == [1, 1, Config().maskSize.h, Config().maskSize.w])
    {
      if !imageEncoded {
        return None;
      }
      var imageSize := Config().imageSize;
      var maskSize := Config().maskSize;
      var point := ClickPoint(click, imageSize);
      points := points + [point];
      if prevMaskArray.Some? {
        var maskShape := [1, 1, maskSize.h, maskSize.w];
        request := Some(SamWorker.DecodeMask(points, prevMaskArray, Some(maskShape)));
      } else {
        request := Some(SamWorker.DecodeMask(points, None, None));
      }
    }

    /** `handleDecodingResults`: shows the best mask at the image size and
        keeps it, thresholded and resampled to the mask size, for the next
        click. */
    method HandleDecodingResults(decodingResults: MaskResult, resize: (Canvas, Size) -> Canvas)
      requires Valid() && MaskOutput(decodingResults) && ResizesTo(resize)
      modifies this
      ensures Valid() && selectedModel == old(selectedModel)
      ensures points == old(points) && image == old(image) && imageEncoded == old(imageEncoded)
      ensures mask == Some(resize(BestMaskCanvas(decodingResults), Config().imageSize))
      ensures var refinement := resize(BestMaskCanvas(decodingResults), Config().maskSize);
        prevMaskArray == Some(MaskFromImageData(refinement.data, refinement.width * refinement.height))
    {
      var maskTensors := decodingResults.masks;
      var width, height := maskTensors.dims[2], maskTensors.dims[3];
      var maskScores := decodingResults.iouPredictions;
      var bestMaskIdx := BestMaskIndex(maskScores);
      var bestMaskArray := SliceTensor(maskTensors, bestMaskIdx);
      assert bestMaskArray == BestMask(decodingResults);
      var bestMaskCanvas := Float32ArrayToCanvas(bestMaskArray, width, height);
      bestMaskCanvas := resize(bestMaskCanvas, Config().imageSize);
      mask := Some(bestMaskCanvas);
      var drawn := Float32ArrayToCanvas(bestMaskArray, width, height);
      var refinementMaskCanvas := resize(drawn, Config().maskSize);
      var refinementMaskArray := MaskCanvasToFloat32Array(refinementMaskCanvas);
      prevMaskArray := Some(refinementMaskArray);
    }

    /** The `encodeImageDone` reply: clicks are accepted from now on. */
    method OnEncodeImageDone()
      modifies this
      ensures imageEncoded
      ensures selectedModel == old(selectedModel) && points == old(points) && image == old(image)
      ensures mask == old(mask) && prevMaskArray == old(prevMaskArray)
    {
      imageEncoded := true;
    }

    /** `resetState`, run when a new image is chosen: forgets the image and
        everything derived from it. */
    method ResetState()
      modifies this
      ensures points == [] && image == None && mask == None && prevMaskArray == None && !imageEncoded
      ensures selectedModel == old(selectedModel)
    {
      points := [];
      image := None;
      mask := None;
      prevMaskArray := None;
      imageEncoded := false;
    }

    /** `handleModelChange`: selects another registered model and forgets
        the prompt and the encoding, but keeps the loaded image. */
    method HandleModelChange(newModelId: string)
      requires newModelId in ModelTable
      modifies this
      ensures Valid() && selectedModel == newModelId
      ensures points == [] && mask == None && prevMaskArray == None && !imageEncoded
      ensures image == old(image)
    {
      selectedModel := newModelId;
      points := [];
      mask := None;
      prevMaskArray := None;
      imageEncoded := false;
    }
  }

  /** After either reset, clicks are ignored until the next image encoding
      completes. */
  method ClickAfterResetIgnored(state: PromptState, click: Click, newModelId: string)
    returns (afterReset: Option<SamWorker.Message>, afterModelChange: Option<SamWorker.Message>)
    requires state.Valid() && click.canvasWidth > 0 && click.canvasHeight > 0
    requires newModelId in ModelTable
    modifies state
    ensures afterReset == None && afterModelChange == None
    ensures state.points == [] && state.selectedModel == newModelId
  {
    state.ResetState();
    afterReset := state.ImageClick(click);
    state.HandleModelChange(newModelId);
    afterModelChange := state.ImageClick(click);
  }
}
