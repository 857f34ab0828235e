# sam-web-demo, modelled in Dafny

sam-web-demo runs Segment Anything (SAM2 Tiny and MobileSAM Tiny) in the
browser. The page turns an image into a float tensor and sends it to a web
worker. The worker normalises, rescales and re-lays-out the tensor for the
selected model and runs the image encoder once. Each click on the image then
becomes a prompt point. The worker decodes all points so far, together with
the previous mask when there is one. The page shows the mask with the highest
predicted IoU and keeps it for the next click.

This project models that pipeline and proves properties of it:

- `common.dfy` (`Common`): shared values (options, results of calls that can
  throw, bytes, sizes, tensors, prompt points, decoder results) and a few
  index-arithmetic lemmas.
- `model_config.dfy` (`ModelConfig`): the model table and the default id, with
  the consistency facts the rest of the code relies on.
- `image_utils.dfy` (`ImageUtils`): letterbox geometry, tensor slicing and the
  three loops that convert between RGBA pixel data and float arrays.
- `sam2.dfy` (`Sam2`): the engine class. It covers cache-or-download over an
  abstract file store and network, the WebGPU-then-CPU session fallback with
  memoised sessions, encoder output binding and decoder input assembly.
- `sam_worker.dfy` (`SamWorker`): the CHW→HWC loop, normalisation,
  input-range scaling, the shape rule, and the `onmessage` dispatcher with its
  `sam`/`stats` state.
- `sam_demo.dfy` (`SamDemo`): the page's prompt state. It covers click-to-point
  mapping, the first-maximum search over IoU scores, the refinement mask and
  the two reset paths.

Float32 values are `real`. Bytes are a `byte` newtype. Three outside
services are given from outside:

- The inference runtime is an `Engine` value of functions: whether a session
  can be created on a provider, the encoder's run and the decoder's run.
  Each run gives its outputs or the exception it rejects with. The runtime's
  `Tensor` constructor is `NewTensor`. It accepts dimensions only when they are
  non-negative and describe exactly the data's elements, and throws otherwise.
- The origin-private file store is a `Storage` object: a name→bytes map plus a
  given write-success predicate.
- The network is a `Network` object: a given response per URL plus a log of
  the URLs requested.

Canvases are their RGBA bytes; `resizeCanvas` is a given function.

Behaviour kept as the code has it:

- An id that is not a key of the table is treated as looking up `undefined`.
  The engine then falls back to the default descriptor, with no error
  (`PingSelectsRegistered`). Ids that name inherited object members are the
  exception; see "Left out".
- The HWC branch with the batch flag set reads `[1, C, H, W]` as
  `[channels, height, width]`. It reorders only the first `C·H` values and
  zeroes the rest (`HwcWithBatchZeroesTail`). The shape it builds,
  `[C, H, 1]`, describes only `C·H` elements. So the runtime refuses the
  tensor and the branch throws, unless the image is one pixel wide
  (`EncoderTensorAccepted`). No registered model takes this branch
  (`LayoutMatchesBatchFlag`).
- The dummy mask is always 256×256, which equals every registered mask size
  (`DummyMaskMatchesRegisteredModels`).
- `createSessions` either throws or reports success. The report's device is
  the encoder's provider, whichever provider the decoder got.
- `sliceTensor` is the two-argument version in `lib/imageutils.js`.

## Model

| member | source | states |
|---|---|---|
| ModelConfig.Lookup | app/modelConfig.js:2-31 | a descriptor is found exactly for registered ids, and it carries the id it was looked up by; other ids give `undefined` (for inherited member names, see Left out) |
| ModelConfig.DefaultDescriptor | app/modelConfig.js:33 | the default descriptor is the table entry for `DEFAULT_MODEL` and carries that id |
| ModelConfig.DefaultModelRegistered | app/modelConfig.js:2-33 | `DEFAULT_MODEL` is a key of the table |
| ModelConfig.IdsMatchKeys | app/modelConfig.js:2-30 | every entry's `id` equals its key |
| ModelConfig.LayoutMatchesBatchFlag | app/modelConfig.js:13-29 | an entry is HWC exactly when it drops the batch dimension |
| ModelConfig.UniformSizes | app/modelConfig.js:9-25 | every entry has a 1024×1024 image size and a 256×256 mask size |
| ModelConfig.InputConventions | app/modelConfig.js:11-29 | no entry normalises; exactly the MobileSAM entries rescale the input range, and by 255 |
| ImageUtils.ResizeAndPadBox | lib/imageutils.js:79-95 | a square source fills the target; a portrait source spans the target's height; a landscape source spans its width |
| ImageUtils.PaddingCentres | lib/imageutils.js:86-92 | half the slack, floored, centres an extent: the offset is not negative, the extent fits, and the two margins differ by less than two pixels |
| ImageUtils.PortraitBox | lib/imageutils.js:82-87 | a portrait source keeps its aspect ratio, fits the target's width and is centred horizontally |
| ImageUtils.LandscapeBox | lib/imageutils.js:88-93 | a landscape source keeps its aspect ratio, fits the target's height and is centred vertically |
| ImageUtils.SquareTargetKeepsAspect | lib/imageutils.js:79-95 | in a square target the box has the source's aspect ratio |
| ImageUtils.SliceTensor | lib/imageutils.js:101-108 | element k of the slice is element `idx·W·H + k` of the data, and the slice has at most `W·H` elements |
| ImageUtils.SliceTensorLength | lib/imageutils.js:101-108 | the slice has exactly `W·H` elements when the block is in bounds. It is cut at the end of the data, and is empty when the block starts past the end |
| ImageUtils.MaskImageDataAt | lib/imageutils.js:118-125 | byte c of pixel i is (0x32, 0xcd, 0x32, 255)[c] when `array[i] > 0`, and 0 otherwise |
| ImageUtils.Float32ArrayToCanvas | lib/imageutils.js:114-134 | the loop fills four bytes per mask value. The canvas is `width`×`height`, and its data is the thresholded colouring of every value, in order |
| ImageUtils.PlanarRgb | lib/imageutils.js:146-157 | the channel-major data has `3·n` values, each in [0, 1] |
| ImageUtils.PlanarRgbAt | lib/imageutils.js:152-157 | `out[c·n + i] = rgba[4i + c] / 255` for c = red, green, blue |
| ImageUtils.AlphaIgnored | lib/imageutils.js:152-157 | two pixel buffers that differ only in alpha give the same float data |
| ImageUtils.PlanarRgbLossless | lib/imageutils.js:152-157 | for opaque pixels, equal float data means equal pixel bytes, so the packing loses nothing but alpha |
| ImageUtils.CanvasToFloat32Array | lib/imageutils.js:142-160 | the loop yields the channel-major RGB data of all `H·W` pixels, with shape `[1, 3, H, W]` |
| ImageUtils.RgbMean | lib/imageutils.js:176-179 | a pixel's mask value lies in [0, 1], and is positive exactly when one of its RGB bytes is non-zero |
| ImageUtils.MaskFromImageData | lib/imageutils.js:168-182 | one mask value per pixel |
| ImageUtils.MaskCanvasToFloat32Array | lib/imageutils.js:168-182 | the loop yields one RGB mean per pixel, each in [0, 1] |
| ImageUtils.MaskThresholdRoundTrip | lib/imageutils.js:114-182 | colouring a mask and reading it back at the same size keeps its length, and keeps a value positive exactly when it was positive |
| Sam2.Storage.GetFile | app/SAM2.js:32-38 | the file's contents exactly when the store holds the name |
| Sam2.Storage.Write | app/SAM2.js:58-67 | the write outcome is the given one; a successful write stores the bytes under the name; a failed one changes nothing |
| Sam2.Network.Fetch | app/SAM2.js:44-55 | the response is the given one for the URL, and the URL is appended to the request log |
| Sam2.Basename | app/SAM2.js:30 | the cache name contains no `/` |
| Sam2.BasenameIsLastSegment | app/SAM2.js:30 | the URL is some prefix, which is empty or ends in `/`, followed by the cache name |
| Sam2.Cached | app/SAM2.js:36-39 | a cached copy exists exactly when the file exists and is not empty, and it is the file's contents |
| Sam2.CacheHitReturnsCached | app/SAM2.js:29-39 | with a non-empty cached file there is no request; the file is returned and the store is unchanged |
| Sam2.CacheMissOutcome | app/SAM2.js:44-69 | on a miss the result is the network response. A failed request stores nothing. A successful one is stored under the base name when the write succeeds, and is returned even when the write fails |
| Sam2.DownloadThenCached | app/SAM2.js:27-69 | after a download that was stored, the next download of the URL is a cache hit that returns the same bytes without a request |
| Sam2.ModelsCachedNoRequest | app/SAM2.js:22-39 | with both model files cached, loading a model makes no request, leaves the store alone and returns the cached bytes |
| Sam2.ModelDownloadsFetchOnlyModelFiles | app/SAM2.js:22-55 | loading a model requests at most two URLs, each one of its two model files; when it makes two requests, they are the encoder's URL then the decoder's |
| Sam2.FirstSession | app/SAM2.js:89-104 | a session comes from one of the providers and wraps the model; otherwise the failure is "no backend" |
| Sam2.FirstSessionIsFirst | app/SAM2.js:89-104 | it throws exactly when every provider refuses. Otherwise the chosen provider accepts the model and every earlier one refused it |
| Sam2.WebGpuThenCpu | app/SAM2.js:90-104 | WebGPU whenever it accepts the model; else the CPU when it does; it throws exactly when both refuse |
| Sam2.GetOrtSession | app/SAM2.js:82-105 | the loop returns the first-accepting provider's session or throws. It tries providers in order, each at most once, and stops at the first success |
| Sam2.Output | app/SAM2.js:131-138 | `results[outputNames[i]]` is the i-th output when there is one, otherwise `undefined` |
| Sam2.Bind | app/SAM2.js:127-140 | SAM2 binds outputs 0, 1 and 2 to `high_res_feats_0`, `high_res_feats_1` and `image_embed`. MobileSAM binds output 0 to `image_embed`. Any other type keeps the previous binding |
| Sam2.FlattenPoints | app/SAM2.js:146-148 | the coordinates are `x0, y0, x1, y1, …`, two per point, in order |
| Sam2.Labels | app/SAM2.js:150-152 | one label per point, in order |
| Sam2.FlattenAppend | app/SAM2.js:146-152 | appending a point appends exactly its coordinates and its label |
| Sam2.DummyMask | app/SAM2.js:159-165 | 256·256 zeros with dims `[1, 1, 256, 256]` |
| Sam2.PointFeeds | app/SAM2.js:146-152 | every family gets `point_coords` `[1, N, 2]` and `point_labels` `[1, N]`, in click order |
| Sam2.MaskFeeds | app/SAM2.js:154-166 | `has_mask_input` is `[1]` exactly when a mask is given, and that mask is the one passed. Otherwise it is `[0]` with the zero dummy mask |
| Sam2.FeedNamesDistinct | app/SAM2.js:170-209 | the nine decoder input names are distinct, so inputs keyed by name constructor are the string-keyed feeds |
| Sam2.FamilyFeeds | app/SAM2.js:168-209 | MobileSAM's input set is exactly the six names, with `orig_im_size = [h, w]`. Every other family's set is exactly the seven names, without an image size, and takes the bound encoder outputs |
| Sam2.EncodeThenDecodeFeeds | app/SAM2.js:127-209 | after binding, the decoder is fed exactly the encoder outputs by position: three for SAM2, one for MobileSAM |
| Sam2.DummyMaskMatchesRegisteredModels | app/SAM2.js:159-165 | the dummy mask has the mask size of every registered model |
| Sam2.SAM2.constructor | app/SAM2.js:8-20 | a missing descriptor selects the default one, `modelType` is the descriptor's, and every other field starts null |
| Sam2.SAM2.DownloadModel | app/SAM2.js:27-70 | the result and the new store are the download outcome. The URL is requested exactly when there is no non-empty cached file |
| Sam2.SAM2.DownloadModels | app/SAM2.js:22-25 | both buffers, the new store and the requests appended to the log are the download outcome: the encoder file, then the decoder file against the store the first left. Sessions and encoding are unchanged |
| Sam2.SAM2.GetEncoderSession | app/SAM2.js:107-112 | a set session is returned unchanged without creating one. An unset one is created from the encoder buffer. A failed creation throws and leaves the field null |
| Sam2.SAM2.GetDecoderSession | app/SAM2.js:114-119 | the same for the decoder |
| Sam2.SAM2.CreateSessions | app/SAM2.js:72-80 | it succeeds exactly when both sessions are set, and then reports success with the encoder's provider. It throws "no backend" when either creation fails, and the decoder is not tried after an encoder failure |
| Sam2.SAM2.EncodeImage | app/SAM2.js:121-141 | the encoder session is the memoised one. It runs under the configured input name and its outputs are bound by family. A failure to open the session throws "no backend"; a rejected run throws its error; both keep the binding. The buffers and the decoder session are unchanged |
| Sam2.SAM2.Decode | app/SAM2.js:143-212 | the decoder session is the memoised one. The result is the decoder's run on the assembled inputs, or its rejection. With no session it throws "no backend"; with no encoded image it throws a null reference. The buffers, the encoder session and the encoding are unchanged |
| SamWorker.PixelMoves | app/sam-worker.js:24-31 | channel `c` of pixel `p` moves from `chw[c·H·W + p]` to `hwc[p·C + c]` |
| SamWorker.HwcIndex | app/sam-worker.js:27-28 | the HWC index of `(h, w, c)` is in range and reads back from its CHW index |
| SamWorker.HwcRoundTrip | app/sam-worker.js:20-35 | reordering to HWC and back restores the data |
| SamWorker.ChwRoundTrip | app/sam-worker.js:20-35 | every HWC arrangement is the reordering of one CHW arrangement, so the reordering is a permutation |
| SamWorker.HwcSingleChannel | app/sam-worker.js:20-35 | with one channel the reordering is the identity |
| SamWorker.ChwToHwc | app/sam-worker.js:20-35 | the triple loop yields the HWC reordering, keeping the input length |
| SamWorker.Normalized | app/sam-worker.js:38-51 | normalisation keeps the length |
| SamWorker.NormalizedAt | app/sam-worker.js:43-48 | `out[c·HW + i] = (data[c·HW + i]·scale − mean[c]) / std[c]` for every channel and pixel |
| SamWorker.ApplyNormalization | app/sam-worker.js:38-51 | the loops yield the normalised data |
| SamWorker.RangeScaled | app/sam-worker.js:95-101 | scaling keeps the length |
| SamWorker.ScaleInputRange | app/sam-worker.js:95-101 | every element is multiplied by the factor, and the length is kept |
| SamWorker.LayoutDims | app/sam-worker.js:103-107 | the dimensions read are the shape without its batch entry, or its first three entries when the descriptor keeps the batch dimension |
| SamWorker.LayoutDimsFit | app/sam-worker.js:103-109 | those dimensions never address past the image data |
| SamWorker.EncoderInputData | app/sam-worker.js:79-113 | the encoder data has the image's length |
| SamWorker.RescaledData | app/sam-worker.js:83-101 | the normalised and scaled data keeps the image's length |
| SamWorker.RescaleEncoderInput | app/sam-worker.js:83-101 | the data is normalised when the descriptor configures it, then scaled when it configures a non-zero input range |
| SamWorker.PrepareEncoderInput | app/sam-worker.js:79-113 | the rescaled data is re-laid-out for HWC, and the shape follows the layout rule (see EncoderInputShape) |
| SamWorker.EncoderInputShape | app/sam-worker.js:103-113 | CHW+batch gives `shape`; CHW gives `shape[1..]`; HWC gives `[H, W, C]`; HWC+batch gives `[C, H, 1]`, read from the batched shape |
| SamWorker.RegisteredEncoderInputs | app/sam-worker.js:79-113 | SAM2 gets the image tensor unchanged. MobileSAM gets it scaled by 255 and reordered to HWC, with shape `[H, W, 3]` |
| SamWorker.EncoderShapeSize | app/sam-worker.js:103-113 | every dimension of the encoder shape is positive. They describe all `C·H·W` elements, except on the HWC+batch branch, where they describe `C·H` |
| SamWorker.EncoderTensorAccepted | app/sam-worker.js:103-115 | the runtime accepts the encoder tensor, as prepared, on every branch but HWC+batch. There it accepts it exactly when the image is one pixel wide. Every registered model's tensor is accepted |
| SamWorker.HwcWithBatchZeroesTail | app/sam-worker.js:103-109 | on the HWC+batch branch every element from `C·H` on is zero |
| SamWorker.DeviceName | app/sam-worker.js:72 | a device name is recorded exactly when the report has a device; it is `"webgpu"` exactly for WebGPU and `"cpu"` exactly for the CPU |
| SamWorker.PingSelectsRegistered | app/sam-worker.js:57-60 | a ping always installs a registered model: the named one when registered, otherwise the default one |
| SamWorker.MaskTensor | app/sam-worker.js:133-138 | no mask array gives no tensor. A given array becomes a tensor with that data and shape exactly when the shape is given and describes the array; otherwise the branch throws |
| SamWorker.PageMaskAccepted | app/sam-worker.js:133-135 | the page's refinement mask, `h·w` values with shape `[1, 1, h, w]`, is always accepted |
| SamWorker.Worker.constructor | app/sam-worker.js:9-17 | no engine and the initial statistics |
| SamWorker.Worker.InstallEngine | app/sam-worker.js:57-69 | a fresh engine for the selected registered model. Its buffers, the new store and the requests appended to the log are the model's download outcome. No sessions and no encoding yet. The model id and one download time are recorded |
| SamWorker.Worker.HandlePing | app/sam-worker.js:56-75 | the engine and downloads of InstallEngine. The encoder session is the first provider's for its buffer, and the decoder session is opened only after an encoder session. It succeeds exactly when both opened, then posts progress, pong and stats with the encoder's device recorded. Otherwise it throws "no backend" after the two progress messages. One download time is appended either way |
| SamWorker.Worker.HandleEncodeImage | app/sam-worker.js:76-126 | with no engine it throws a null reference. A prepared tensor the runtime refuses throws before any session is opened. Otherwise the encoder session is the memoised one, and a successful run binds its outputs, appends one encode time and posts done plus stats. A session failure or a rejected run throws its error. Every failure keeps the encoding and the statistics. The buffers and the decoder session are unchanged |
| SamWorker.Worker.HandleDecodeMask | app/sam-worker.js:127-144 | a refused mask tensor throws before the engine is touched; with no engine it throws a null reference. Otherwise the decoder session is the memoised one, and its run on the assembled inputs, with the mask only when an array is given, is posted with stats after one decode time is appended. A missing session, a missing encoding and a rejected run each throw and record nothing. The buffers, the encoder session and the encoding are unchanged |
| SamWorker.Worker.OnMessage | app/sam-worker.js:53-150 | the dispatcher keeps the engine's model registered and gives each message type the full contract of its branch: ping, encodeImage and decodeMask as their handlers state. A stats request posts the statistics and changes nothing. Any other type throws and changes nothing |
| SamDemo.ClickPointInImage | app/SAMDemo.jsx:91-96 | a click inside the canvas maps to a point inside the model's input image, labelled 1 exactly for button 0 and 0 otherwise |
| SamDemo.FirstMaxIndex | app/SAMDemo.jsx:132-139 | the index is within the scores, or 0 when there are none |
| SamDemo.FirstMaxIndexIsFirstMax | app/SAMDemo.jsx:132-139 | the chosen score is a maximum and strictly exceeds every earlier score |
| SamDemo.FirstMaxUnique | app/SAMDemo.jsx:132-139 | the first maximum is unique |
| SamDemo.BestMaskIndex | app/SAMDemo.jsx:131-139 | the loop with strict `>` from `-Infinity` yields the first maximum, and 0 for no scores |
| SamDemo.BestMask | app/SAMDemo.jsx:141-145 | the best mask is the block of `dims[2]·dims[3]` values at the first index of a highest score, and it lies within the mask data |
| SamDemo.BestMaskCanvas | app/SAMDemo.jsx:146 | the drawn best mask is a well-formed canvas |
| SamDemo.RefinementMaskKeepsBestMask | app/SAMDemo.jsx:141-158 | without resampling, the stored refinement mask is positive exactly where the best mask is |
| SamDemo.PromptState.constructor | app/SAMDemo.jsx:38-61 | the default model, no points, no image, no masks, not encoded |
| SamDemo.PromptState.ImageClick | app/SAMDemo.jsx:82-123 | before encoding, nothing changes and nothing is sent. After encoding, exactly the click's point is appended and all points are sent. The previous mask is attached with shape `[1, 1, h, w]` exactly when there is one |
| SamDemo.PromptState.HandleDecodingResults | app/SAMDemo.jsx:126-159 | the shown mask is the best mask resized to the image size. The kept mask is the best mask coloured, resized to the mask size and read back. Points and encoding are unchanged |
| SamDemo.PromptState.OnEncodeImageDone | app/SAMDemo.jsx:178-181 | clicks are accepted from now on; nothing else changes |
| SamDemo.PromptState.ResetState | app/SAMDemo.jsx:207-213 | no points, image, mask or prior mask, and not encoded; the model is kept |
| SamDemo.PromptState.HandleModelChange | app/SAMDemo.jsx:241-251 | the new registered model, with no points, mask or prior mask, and not encoded; the image is kept |
| SamDemo.ClickAfterResetIgnored | app/SAMDemo.jsx:207-251 | after either reset a click sends nothing and adds no point |

## Left out

- The canvas API: drawing, `getImageData`/`putImageData`, `maskImageCanvas`, `mergeMasks`. Canvases are their RGBA bytes, and `resizeCanvas` is a given function that only promises the requested size.
- ONNX Runtime internals. Session creation and `session.run` are the given functions of `Engine`; `NewTensor` states the constructor's dimension check as this model takes it. Tensor element types are not modelled. Nor is a dimension that is not a safe integer, since all dimensions are `int`s. The tensors `decode` builds itself always match their data and are built directly. `Engine.accepts` is deliberately unconstrained for a `None` model (a failed download). In the code the runtime refuses a `null` model on every provider, so opening the session ends in `NoBackendAvailable`. No property proved here depends on this.
- `fetch`, `navigator.storage` and file handles are the `Storage` and `Network` objects. The following are not modelled: a rejection of `navigator.storage.getDirectory()` (which would escape `downloadModels` and the `ping` branch), a failed `getFile`/`arrayBuffer` on a cached file, and console logging.
- ModelConfig.Lookup: ids that name `Object.prototype` members (`"toString"`, `"constructor"`, `"__proto__"`) are treated as unregistered and give `None`. In the code the lookup returns the inherited member, not `undefined`. The page's selector offers only registered ids.
- SamWorker.PingSelectsRegistered: for those ids the model installs the default descriptor. In the code the constructor's default is not applied, because the value is not `undefined`. `downloadModels` then throws on the missing URL after the model id is recorded, and no download time is pushed. The installed engine holds no registered descriptor.
- Sam2.Storage.Write: a failed write leaves the store unchanged. The browser may leave an empty file behind instead, and a later read treats an empty file as missing.
- Sam2.Basename: the text after the last `/`. The trailing-slash stripping of `path.basename` is not modelled; no configured URL ends in `/`.
- Sam2.SAM2.CreateSessions: the report's `success` is `true`. In the code it is the decoder's `[session, ep]` pair, which is always truthy when no exception escapes.
- Float32 rounding, clamping and `NaN`: all values are `real`. Division needs a non-zero divisor. SamWorker.ApplyNormalization requires `mean` and `std` to have an entry for each channel, with a non-zero `std`. In the code a missing entry reads `undefined` and gives `NaN`. No registered model normalises. SamDemo.ClickPointInImage and SamDemo.PromptState.ImageClick require a canvas of non-zero size.
- SamWorker.Worker.OnMessage: an `encodeImage` message must carry a `[1, C, H, W]` tensor with matching data. The code has no such check, and other input is not modelled. Data whose size does not match the shape makes the `Tensor` constructor throw. For MobileSAM this happens after the reordering loop has read past the array. Some other shapes whose size matches their data, such as `[2, 3, H, W]` or a three-dimensional `[3, H, W]` for SAM2, are encoded as given. The page only ever sends `canvasToFloat32Array`'s `[1, 3, H, W]` tensor (`app/SAMDemo.jsx:71-74`), which meets the requirement.
- ImageUtils.Float32ArrayToCanvas: requires exactly `width·height` values. The image-data constructor throws otherwise, and that exception is not modelled. It also throws for empty data, that is, a width or height of 0. The model instead returns an empty canvas there.
- SamDemo.PromptState.HandleDecodingResults: requires a decoder result whose scores address existing masks. A result with a zero-size mask (`dims[2]` or `dims[3]` of 0) makes the page's mask drawing throw. The model instead carries on with an empty mask canvas.
- Worker threading, `postMessage` (the posted replies are returned in order), `performance.now` (the measured duration is a parameter) and `async` interleaving. The `error` reply is not modelled; the worker never posts one.
- React rendering, the status text, the loading and device flags, image loading, `encodeImageClick`, `cropClick` and `onWorkerMessage` beyond `encodeImageDone` and `decodeMaskResult`. State updates take effect immediately.
- The page imports `sliceTensor` and the model table from the published package. Both are modelled by the local two-argument `sliceTensor` and the local table.
- `app/page.jsx`, `next.config.js` and `jest.config.mjs` are not part of this model.
