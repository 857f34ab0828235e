/** The engine wrapper (app/SAM2.js): downloads and caches the two model
    files, opens one inference session per model with an ordered backend
    fallback, binds the encoder's outputs and assembles the decoder's inputs.
    The inference runtime, the origin-private file store and the network are
    given from outside: the runtime as the functions of an `Engine`, the
    store as a `Storage` object, the network as a `Network` object. */
module Sam2 {
  import opened Common
  import opened ModelConfig

  // ---------------------------------------------------------------------
  // The world outside the wrapper
  // ---------------------------------------------------------------------

  /** An execution provider of the inference runtime. */
  datatype Backend = WebGpu | Cpu

  /** The providers tried, in order. */
  const ExecutionProviders: seq<Backend> := [WebGpu, Cpu]

  /** An inference session: the model buffer it was created from (`None` for
      a buffer whose download failed) and the provider it runs on. */
  datatype Session = Session(model: Option<Bytes>, backend: Backend)

  /** The `[session, ep]` pair `getORTSession` returns. */
  datatype SessionPair = SessionPair(session: Session, ep: Backend)

  /** The decoder input names the demo feeds, one constructor per name. */
  datatype FeedName =
    | ImageEmbeddings | ImageEmbed | HighResFeats0 | HighResFeats1
    | PointCoords | PointLabels | MaskInput | HasMaskInput | OrigImSize
  {
    /** The input name as the decoder model declares it. */
    function Name(): string {
      match this
      case ImageEmbeddings => "image_embeddings"
      case ImageEmbed => "image_embed"
      case HighResFeats0 => "high_res_feats_0"
      case HighResFeats1 => "high_res_feats_1"
      case PointCoords => "point_coords"
      case PointLabels => "point_labels"
      case MaskInput => "mask_input"
      case HasMaskInput => "has_mask_input"
      case OrigImSize => "orig_im_size"
    }
  }

  /** Distinct inputs have distinct names, so a map keyed by `FeedName`
      holds what the string-keyed feeds object holds. */
  lemma FeedNamesDistinct(a: FeedName, b: FeedName)
    requires a != b
    ensures a.Name() != b.Name()
  {
  }

  /** The inference runtime, as given functions:
      `accepts(model, ep)` says whether creating a session for `model` on
      provider `ep` succeeds; `encode(session, inputName, input)` is the
      encoder's run: its outputs in `outputNames` order, or the exception
      the run rejects with; `decode(session, feeds)` is the decoder's run on
      the named inputs (`None` for an input read from an output the encoder
      did not produce). */
  datatype Engine = Engine(
    accepts: (Option<Bytes>, Backend) -> bool,
    encode: (Session, string, Tensor) -> Result<seq<Tensor>>,
    decode: (Session, map<FeedName, Option<Tensor>>) -> Result<MaskResult>)

  /** The number of elements the dimensions `dims` describe. */
  function DimsSize(dims: seq<int>): int {
    if |dims| == 0 then 1 else dims[0] * DimsSize(dims[1..])
  }

  /** `new Tensor("float32", data, dims)`: the runtime accepts dimensions
      that are all non-negative and describe exactly the data's elements,
      and throws for any others. */
  function NewTensor(data: seq<real>, dims: seq<int>): (r: Result<Tensor>)
    ensures r.Ok? <==> (forall i :: 0 <= i < |dims| ==> dims[i] >= 0) && DimsSize(dims) == |data|
    ensures r.Ok? ==> r.value == Tensor(data, dims)
    ensures r.Throw? ==> r.error == InvalidTensor
  {
    if (forall i :: 0 <= i < |dims| ==> dims[i] >= 0) && DimsSize(dims) == |data| then Ok(Tensor(data, dims))
    else Throw(InvalidTensor)
  }

  /** The origin-private file system: a map from file name to contents, and
      a given predicate saying whether storing given contents under a name
      succeeds. */
  class Storage {
    var files: map<string, Bytes>
    const writeSucceeds: (string, Bytes) -> bool

    constructor(files: map<string, Bytes>, writeSucceeds: (string, Bytes) -> bool)
      ensures this.files == files && this.writeSucceeds == writeSucceeds
    {
      this.files := files;
      this.writeSucceeds := writeSucceeds;
    }

    /** `root.getFileHandle(name)` followed by `getFile()`: the file's
        contents, or `None` when there is no such file. */
    method GetFile(name: string) returns (file: Option<Bytes>)
      ensures file.Some? <==> name in files
      ensures file.Some? ==> file.value == files[name]
    {
      file := if name in files then Some(files[name]) else None;
    }

    /** Creating (or truncating) the file, writing `data` and closing it.
        A failed write leaves the store as it was. */
    method Write(name: string, data: Bytes) returns (ok: bool)
      modifies this
      ensures ok == writeSucceeds(name, data)
      ensures files == if ok then old(files)[name := data] else old(files)
    {
      ok := writeSucceeds(name, data);
      if ok {
        files := files[name := data];
      }
    }
  }

  /** The network: a given response for every URL (`None` when the request
      is rejected) and the log of the URLs requested so far. */
  class Network {
    const responses: string -> Option<Bytes>
    var requested: seq<string>

    constructor(responses: string -> Option<Bytes>)
      ensures this.responses == responses && requested == []
    {
      this.responses := responses;
      requested := [];
    }

    /** `fetch(url)` followed by `arrayBuffer()`. */
    method Fetch(url: string) returns (body: Option<Bytes>)
      modifies this
      ensures body == responses(url)
      ensures requested == old(requested) + [url]
    {
      body := responses(url);
      requested := requested + [url];
    }
  }

  // ---------------------------------------------------------------------
  // Cache-or-download
  // ---------------------------------------------------------------------

  /** `path.basename(url)`: the text after the last `/`. */
  function Basename(url: string): (name: string)
    ensures '/' !in name
  {
    if |url| == 0 then ""
    else if url[|url| - 1] == '/' then ""
    else Basename(url[..|url| - 1]) + [url[|url| - 1]]
  }

  /** The base name is the URL's last segment: what precedes it is empty or
      ends in a `/`. */
  lemma {:induction false} BasenameIsLastSegment(url: string) returns (dir: string)
    ensures url == dir + Basename(url)
    ensures dir == [] || dir[|dir| - 1] == '/'
    decreases |url|
  {
    if |url| == 0 {
      dir := [];
    } else if url[|url| - 1] == '/' {
      dir := url;
    } else {
      var init := url[..|url| - 1];
      dir := BasenameIsLastSegment(init);
      assert url == init + [url[|url| - 1]];
    }
  }

  /** The cached copy of a file: present only when the file exists and is
      not empty. */
  function Cached(files: map<string, Bytes>, name: string): (file: Option<Bytes>)
    ensures file.Some? ==> name in files && file.value == files[name] && |file.value| > 0
    ensures file.None? ==> name !in files || |files[name]| == 0
  {
    if name in files && |files[name]| > 0 then Some(files[name]) else None
  }

  /** What `downloadModel(url)` returns and what the store holds afterwards,
      given the store before, the network's response and the store's write
      outcome. */
  function DownloadOutcome(files: map<string, Bytes>, url: string, response: Option<Bytes>,
                           writeSucceeds: (string, Bytes) -> bool): (Option<Bytes>, map<string, Bytes>)
  {
    var name := Basename(url);
    var cached := Cached(files, name);
    if cached.Some? then (cached, files)
    else if response.None? then (None, files)
    else if writeSucceeds(name, response.value) then (response, files[name := response.value])
    else (response, files)
  }

  /** Whether `downloadModel(url)` goes to the network: exactly when there
      is no non-empty cached file under the URL's base name. */
  predicate Fetches(files: map<string, Bytes>, url: string) {
    Cached(files, Basename(url)).None?
  }

  /** A non-empty cached file is returned as it is and the store is left
      alone. */
  lemma CacheHitReturnsCached(files: map<string, Bytes>, url: string, response: Option<Bytes>,
                              writeSucceeds: (string, Bytes) -> bool)
    requires Basename(url) in files && |files[Basename(url)]| > 0
    ensures !Fetches(files, url)
    ensures DownloadOutcome(files, url, response, writeSucceeds) == (Some(files[Basename(url)]), files)
  {
  }

  /** On a miss: a failed request returns nothing and stores nothing; a
      successful one returns the downloaded bytes whether or not storing them
      succeeds, and stores them under the URL's base name when it does. */
  lemma CacheMissOutcome(files: map<string, Bytes>, url: string, response: Option<Bytes>,
                         writeSucceeds: (string, Bytes) -> bool)
    requires Fetches(files, url)
    ensures var (buffer, files') := DownloadOutcome(files, url, response, writeSucceeds);
      buffer == response &&
      (response.None? ==> files' == files) &&
      (response.Some? && writeSucceeds(Basename(url), response.value) ==>
         files' == files[Basename(url) := response.value]) &&
      (response.Some? && !writeSucceeds(Basename(url), response.value) ==> files' == files)
  {
  }

  /** A download whose storage succeeded makes the next download of the same
      URL a cache hit that returns the same bytes without a request. */
  lemma DownloadThenCached(files: map<string, Bytes>, url: string, response: Option<Bytes>,
                           writeSucceeds: (string, Bytes) -> bool, response2: Option<Bytes>)
    requires Fetches(files, url)
    requires response.Some? && |response.value| > 0 && writeSucceeds(Basename(url), response.value)
    ensures var (buffer, files') := DownloadOutcome(files, url, response, writeSucceeds);
      !Fetches(files', url) &&
      DownloadOutcome(files', url, response2, writeSucceeds) == (buffer, files')
  {
  }

  /** What `downloadModels` leaves behind: the encoder and decoder buffers,
      the store, and the URLs requested, in order. */
  datatype Downloads = Downloads(encoder: Option<Bytes>, decoder: Option<Bytes>,
                                 files: map<string, Bytes>, fetched: seq<string>)

  /** `downloadModels` for a descriptor: the encoder file, then the decoder
      file against the store the first download left. */
  function ModelDownloads(files: map<string, Bytes>, cfg: Descriptor, responses: string -> Option<Bytes>,
                          writeSucceeds: (string, Bytes) -> bool): Downloads
  {
    var (enc, files1) := DownloadOutcome(files, cfg.encoderUrl, responses(cfg.encoderUrl), writeSucceeds);
    var (dec, files2) := DownloadOutcome(files1, cfg.decoderUrl, responses(cfg.decoderUrl), writeSucceeds);
    Downloads(enc, dec, files2,
              (if Fetches(files, cfg.encoderUrl) then [cfg.encoderUrl] else []) +
              (if Fetches(files1, cfg.decoderUrl) then [cfg.decoderUrl] else []))
  }

  /** With both model files cached, loading a model makes no request, leaves
      the store alone and hands over the cached bytes. */
  lemma ModelsCachedNoRequest(files: map<string, Bytes>, cfg: Descriptor, responses: string -> Option<Bytes>,
                              writeSucceeds: (string, Bytes) -> bool)
    requires Cached(files, Basename(cfg.encoderUrl)).Some? && Cached(files, Basename(cfg.decoderUrl)).Some?
    ensures ModelDownloads(files, cfg, responses, writeSucceeds)
         == Downloads(Some(files[Basename(cfg.encoderUrl)]), Some(files[Basename(cfg.decoderUrl)]), files, [])
  {
  }

  /** Every request made while loading a model is for one of its two files.
      When the two URLs differ and both miss the cache, they are requested
      once each, the encoder's first. */
  lemma ModelDownloadsFetchOnlyModelFiles(files: map<string, Bytes>, cfg: Descriptor,
                                          responses: string -> Option<Bytes>, writeSucceeds: (string, Bytes) -> bool)
    ensures var o := ModelDownloads(files, cfg, responses, writeSucceeds);
      |o.fetched| <= 2 && (forall u :: u in o.fetched ==> u == cfg.encoderUrl || u == cfg.decoderUrl) &&
      (|o.fetched| == 2 ==> o.fetched == [cfg.encoderUrl, cfg.decoderUrl])
  {
  }

  // ---------------------------------------------------------------------
  // Sessions with ordered backend fallback
  // ---------------------------------------------------------------------

  /** The session from the first provider of `eps` that accepts `model`, or
      an exception when none does. */
  function FirstSession(engine: Engine, model: Option<Bytes>, eps: seq<Backend>): (r: Result<SessionPair>)
    ensures r.Ok? ==> r.value.ep in eps && r.value.session == Session(model, r.value.ep)
    ensures r.Throw? ==> r.error == NoBackendAvailable
  {
    if |eps| == 0 then Throw(NoBackendAvailable)
    else if engine.accepts(model, eps[0]) then Ok(SessionPair(Session(model, eps[0]), eps[0]))
    else FirstSession(engine, model, eps[1..])
  }

  /** The chosen provider is the first that accepts the model: every earlier
      one refused it; and there is an exception exactly when all refuse. */
  lemma {:induction false} FirstSessionIsFirst(engine: Engine, model: Option<Bytes>, eps: seq<Backend>)
    ensures FirstSession(engine, model, eps).Throw? <==> forall i :: 0 <= i < |eps| ==> !engine.accepts(model, eps[i])
    ensures FirstSession(engine, model, eps).Ok? ==>
      exists j :: 0 <= j < |eps| && eps[j] == FirstSession(engine, model, eps).value.ep &&
        engine.accepts(model, eps[j]) && forall i :: 0 <= i < j ==> !engine.accepts(model, eps[i])
    decreases |eps|
  {
    if |eps| > 0 && !engine.accepts(model, eps[0]) {
      FirstSessionIsFirst(engine, model, eps[1..]);
      var r := FirstSession(engine, model, eps);
      if r.Ok? {
        var j :| 0 <= j < |eps[1..]| && eps[1..][j] == r.value.ep &&
          engine.accepts(model, eps[1..][j]) && forall i :: 0 <= i < j ==> !engine.accepts(model, eps[1..][i]);
        assert eps[j + 1] == r.value.ep;
      }
      if forall i :: 0 <= i < |eps[1..]| ==> !engine.accepts(model, eps[1..][i]) {
        forall i | 0 <= i < |eps|
          ensures !engine.accepts(model, eps[i])
        {
          if i > 0 {
            assert eps[i] == eps[1..][i - 1];
          }
        }
      }
    } else if |eps| > 0 {
      assert eps[0] == FirstSession(engine, model, eps).value.ep;
    }
  }

  /** For the two providers: WebGPU whenever it accepts the model, otherwise
      the CPU when it does, otherwise an exception. */
  lemma WebGpuThenCpu(engine: Engine, model: Option<Bytes>)
    ensures engine.accepts(model, WebGpu) ==>
      FirstSession(engine, model, ExecutionProviders) == Ok(SessionPair(Session(model, WebGpu), WebGpu))
    ensures !engine.accepts(model, WebGpu) && engine.accepts(model, Cpu) ==>
      FirstSession(engine, model, ExecutionProviders) == Ok(SessionPair(Session(model, Cpu), Cpu))
    ensures FirstSession(engine, model, ExecutionProviders).Throw? <==>
      !engine.accepts(model, WebGpu) && !engine.accepts(model, Cpu)
  {
    assert ExecutionProviders[1..] == [Cpu];
    assert ExecutionProviders[1..][1..] == [];
  }

  /** The field a session getter leaves set: the session when one opened. */
  function Opened(s: Result<SessionPair>): Option<SessionPair> {
    if s.Ok? then Some(s.value) else None
  }

  /** A memoised session field after its getter ran: kept when it was set,
      otherwise the first provider's session for the buffer, if any. */
  function Memoised(field: Option<SessionPair>, engine: Engine, buffer: Option<Bytes>): Option<SessionPair> {
    if field.Some? then field else Opened(FirstSession(engine, buffer, ExecutionProviders))
  }

  /** `getORTSession`: tries each provider once, in order, and returns the
      first session created. `attempted` lists the providers tried. */
  method GetOrtSession(engine: Engine, model: Option<Bytes>) returns (r: Result<SessionPair>, ghost attempted: seq<Backend>)
    ensures r == FirstSession(engine, model, ExecutionProviders)
    ensures r.Ok? ==> |attempted| > 0 && attempted[|attempted| - 1] == r.value.ep
    ensures forall i :: 0 <= i < |attempted| - 1 ==> !engine.accepts(model, attempted[i])
    ensures attempted <= ExecutionProviders
    ensures r.Throw? ==> attempted == ExecutionProviders
  {
    attempted := [];
    var i := 0;
    while i < |ExecutionProviders|
      invariant 0 <= i <= |ExecutionProviders|
      invariant attempted == ExecutionProviders[..i]
      invariant forall j :: 0 <= j < i ==> !engine.accepts(model, ExecutionProviders[j])
      invariant FirstSession(engine, model, ExecutionProviders) == FirstSession(engine, model, ExecutionProviders[i..])
    {
      var ep := ExecutionProviders[i];
      attempted := attempted + [ep];
      if engine.accepts(model, ep) {
        r := Ok(SessionPair(Session(model, ep), ep));
        return;
      }
      assert ExecutionProviders[i..][1..] == ExecutionProviders[i + 1..];
      i := i + 1;
    }
    r := Throw(NoBackendAvailable);
  }

  // ---------------------------------------------------------------------
  // Encoder output binding and decoder input assembly
  // ---------------------------------------------------------------------

  /** `image_encoded`: the encoder outputs the decoder reads. A member is
      `None` when the encoder did not produce it. */
  datatype EncodedImage = EncodedImage(highResFeats0: Option<Tensor>, highResFeats1: Option<Tensor>, imageEmbed: Option<Tensor>)

  /** `results[session.outputNames[i]]`. */
  function Output(results: seq<Tensor>, i: nat): (t: Option<Tensor>)
    ensures t.Some? <==> i < |results|
    ensures t.Some? ==> t.value == results[i]
  {
    if i < |results| then Some(results[i]) else None
  }

  /** The encoder results bound by position: three outputs for SAM2, one for
      MobileSAM; any other family keeps the previous binding. */
  function Bind(modelType: ModelType, results: seq<Tensor>, previous: Option<EncodedImage>): (e: Option<EncodedImage>)
    ensures modelType == Sam2 ==> e == Some(EncodedImage(Output(results, 0), Output(results, 1), Output(results, 2)))
    ensures modelType == MobileSam ==> e == Some(EncodedImage(None, None, Output(results, 0)))
    ensures modelType.OtherType? ==> e == previous
  {
    match modelType
    case Sam2 => Some(EncodedImage(Output(results, 0), Output(results, 1), Output(results, 2)))
    case MobileSam => Some(EncodedImage(None, None, Output(results, 0)))
    case OtherType(_) => previous
  }

  /** `points.map(p => [p.x, p.y]).flat()`. */
  function FlattenPoints(points: seq<Point>): (coords: seq<real>)
    ensures |coords| == 2 * |points|
    ensures forall i :: 0 <= i < |points| ==> coords[2 * i] == points[i].x && coords[2 * i + 1] == points[i].y
  {
    if |points| == 0 then []
    else
      var init := FlattenPoints(points[..|points| - 1]);
      assert forall i :: 0 <= i < |points| - 1 ==> points[..|points| - 1][i] == points[i];
      init + [points[|points| - 1].x, points[|points| - 1].y]
  }

  /** `points.map(p => p.label)`. */
  function Labels(points: seq<Point>): (labels: seq<real>)
    ensures |labels| == |points|
    ensures forall i :: 0 <= i < |points| ==> labels[i] == points[i].pointLabel as real
  {
    if |points| == 0 then []
    else
      var init := Labels(points[..|points| - 1]);
      assert forall i :: 0 <= i < |points| - 1 ==> points[..|points| - 1][i] == points[i];
      init + [points[|points| - 1].pointLabel as real]
  }

  /** Appending a point appends its coordinates and its label. */
  lemma {:induction false} FlattenAppend(points: seq<Point>, p: Point)
    ensures FlattenPoints(points + [p]) == FlattenPoints(points) + [p.x, p.y]
    ensures Labels(points + [p]) == Labels(points) + [p.pointLabel as real]
  {
    assert (points + [p])[..|points|] == points;
  }

  /** The dummy mask: 256 x 256 zeros. */
  const DummyMaskSide: nat := 256

  function DummyMask(): (t: Tensor)
    ensures |t.data| == DummyMaskSide * DummyMaskSide
    ensures forall i :: 0 <= i < |t.data| ==> t.data[i] == 0.0
    ensures t.dims == [1, 1, DummyMaskSide, DummyMaskSide]
  {
    Tensor(seq(DummyMaskSide * DummyMaskSide, _ => 0.0), [1, 1, DummyMaskSide, DummyMaskSide])
  }

  /** The decoder inputs `decode` assembles from the bound encoder outputs,
      the prompt points and an optional prior mask. */
  function DecoderFeeds(modelType: ModelType, imageSize: Size, encoded: EncodedImage,
                        points: seq<Point>, masks: Option<Tensor>): (feeds: map<FeedName, Option<Tensor>>)
  {
    var pointCoords := Some(Tensor(FlattenPoints(points), [1, |points|, 2]));
    var pointLabels := Some(Tensor(Labels(points), [1, |points|]));
    var maskInput := if masks.Some? then masks else Some(DummyMask());
    var hasMaskInput := Some(Tensor(if masks.Some? then [1.0] else [0.0], [1]));
    if modelType == MobileSam then
      map[ImageEmbeddings := encoded.imageEmbed,
          PointCoords := pointCoords,
          PointLabels := pointLabels,
          MaskInput := maskInput,
          HasMaskInput := hasMaskInput,
          OrigImSize := Some(Tensor([imageSize.h as real, imageSize.w as real], [2]))]
    else
      map[ImageEmbed := encoded.imageEmbed,
          HighResFeats0 := encoded.highResFeats0,
          HighResFeats1 := encoded.highResFeats1,
          PointCoords := pointCoords,
          PointLabels := pointLabels,
          MaskInput := maskInput,
          HasMaskInput := hasMaskInput]
  }

  /** The prompt inputs every family receives: the points as `[1, N, 2]`
      coordinates and `[1, N]` labels, in click order. */
  lemma PointFeeds(modelType: ModelType, imageSize: Size, encoded: EncodedImage,
                   points: seq<Point>, masks: Option<Tensor>)
    ensures var feeds := DecoderFeeds(modelType, imageSize, encoded, points, masks);
      PointCoords in feeds && PointLabels in feeds &&
      feeds[PointCoords] == Some(Tensor(FlattenPoints(points), [1, |points|, 2])) &&
      feeds[PointLabels] == Some(Tensor(Labels(points), [1, |points|]))
  {
    if modelType == MobileSam {
    } else {
    }
  }

  /** The mask inputs every family receives: the prior mask with
      `has_mask_input = [1]` when there is one, and otherwise a zero
      256 x 256 mask with `has_mask_input = [0]`. */
  lemma MaskFeeds(modelType: ModelType, imageSize: Size, encoded: EncodedImage,
                  points: seq<Point>, masks: Option<Tensor>)
    ensures var feeds := DecoderFeeds(modelType, imageSize, encoded, points, masks);
      MaskInput in feeds && HasMaskInput in feeds &&
      (masks.Some? <==> feeds[HasMaskInput] == Some(Tensor([1.0], [1]))) &&
      (masks.None? <==> feeds[HasMaskInput] == Some(Tensor([0.0], [1]))) &&
      (masks.Some? ==> feeds[MaskInput] == masks) &&
      (masks.None? ==> feeds[MaskInput] == Some(DummyMask()))
  {
    var feeds := DecoderFeeds(modelType, imageSize, encoded, points, masks);
    var hasMask := Some(Tensor(if masks.Some? then [1.0] else [0.0], [1]));
    assert [1.0] != [0.0];
    assert feeds[HasMaskInput] == hasMask;
  }

  /** The family-specific inputs: MobileSAM takes the embedding as
      `image_embeddings` plus `orig_im_size = [h, w]`; every other family
      takes `image_embed` and the two high-resolution feature maps, and no
      image size. */
  lemma FamilyFeeds(modelType: ModelType, imageSize: Size, encoded: EncodedImage,
                    points: seq<Point>, masks: Option<Tensor>)
    ensures var feeds := DecoderFeeds(modelType, imageSize, encoded, points, masks);
      (modelType == MobileSam ==>
        feeds.Keys == {ImageEmbeddings, PointCoords, PointLabels, MaskInput, HasMaskInput, OrigImSize} &&
        feeds[ImageEmbeddings] == encoded.imageEmbed &&
        feeds[OrigImSize] == Some(Tensor([imageSize.h as real, imageSize.w as real], [2]))) &&
      (modelType != MobileSam ==>
        feeds.Keys == {ImageEmbed, HighResFeats0, HighResFeats1, PointCoords, PointLabels, MaskInput, HasMaskInput} &&
        feeds[ImageEmbed] == encoded.imageEmbed &&
        feeds[HighResFeats0] == encoded.highResFeats0 &&
        feeds[HighResFeats1] == encoded.highResFeats1)
  {
  }

  /** An encoder binding followed by decoding feeds the decoder exactly the
      outputs the encoder produced for that family: the three SAM2 outputs by
      position, or the single MobileSAM output. */
  lemma EncodeThenDecodeFeeds(modelType: ModelType, imageSize: Size, results: seq<Tensor>,
                              points: seq<Point>, masks: Option<Tensor>)
    requires modelType == Sam2 || modelType == MobileSam
    requires |results| >= (if modelType == Sam2 then 3 else 1)
    ensures Bind(modelType, results, None).Some?
    ensures var feeds := DecoderFeeds(modelType, imageSize, Bind(modelType, results, None).value, points, masks);
      (modelType == Sam2 ==>
        feeds[HighResFeats0] == Some(results[0]) &&
        feeds[HighResFeats1] == Some(results[1]) &&
        feeds[ImageEmbed] == Some(results[2])) &&
      (modelType == MobileSam ==> feeds[ImageEmbeddings] == Some(results[0]))
  {
  }

  /** The dummy mask has the mask size of every registered model. */
  lemma DummyMaskMatchesRegisteredModels()
    ensures forall k :: k in ModelTable ==>
      DummyMask().dims == [1, 1, ModelTable[k].maskSize.h, ModelTable[k].maskSize.w]
  {
  }

  // ---------------------------------------------------------------------
  // The engine object
  // ---------------------------------------------------------------------

  /** The `{success, device}` report of `createSessions`. */
  datatype Report = Report(success: bool, device: Option<Backend>)

  class SAM2 {
    var bufferEncoder: Option<Bytes>
    var bufferDecoder: Option<Bytes>
    var sessionEncoder: Option<SessionPair>
    var sessionDecoder: Option<SessionPair>
    var imageEncoded: Option<EncodedImage>
    const modelConfig: Descriptor
    const modelType: ModelType

    /** A missing descriptor (`undefined`) selects the default model's. */
    constructor(modelConfig: Option<Descriptor>)
      ensures this.modelConfig == if modelConfig.Some? then modelConfig.value else DefaultDescriptor()
      ensures modelType == this.modelConfig.modelType
      ensures bufferEncoder == None && bufferDecoder == None
      ensures sessionEncoder == None && sessionDecoder == None && imageEncoded == None
    {
      this.modelConfig := if modelConfig.Some? then modelConfig.value else DefaultDescriptor();
      this.modelType := (if modelConfig.Some? then modelConfig.value else DefaultDescriptor()).modelType;
      bufferEncoder := None;
      bufferDecoder := None;
      sessionEncoder := None;
      sessionDecoder := None;
      imageEncoded := None;
    }

    /** `downloadModel(url)`: the cached file when there is a non-empty one,
        otherwise the downloaded bytes, stored when storing succeeds. */
    static method DownloadModel(url: string, store: Storage, net: Network) returns (buffer: Option<Bytes>)
      modifies store, net
      ensures (buffer, store.files) == DownloadOutcome(old(store.files), url, net.responses(url), store.writeSucceeds)
      ensures net.requested == old(net.requested) + (if Fetches(old(store.files), url) then [url] else [])
    {
      var filename := Basename(url);
      var fileHandle := store.GetFile(filename);
      if fileHandle.Some? && |fileHandle.value| > 0 {
        assert Cached(store.files, filename) == fileHandle;
        return fileHandle;
      }
      assert Fetches(store.files, url);
      buffer := net.Fetch(url);
      if buffer.None? {
        return None;
      }
      var _ := store.Write(filename, buffer.value);
    }

    /** `downloadModels`: the encoder file, then the decoder file. */
    method DownloadModels(store: Storage, net: Network)
      modifies this, store, net
      ensures var o := ModelDownloads(old(store.files), modelConfig, net.responses, store.writeSucceeds);
        bufferEncoder == o.encoder && bufferDecoder == o.decoder && store.files == o.files &&
        net.requested == old(net.requested) + o.fetched
      ensures sessionEncoder == old(sessionEncoder) && sessionDecoder == old(sessionDecoder)
      ensures imageEncoded == old(imageEncoded)
    {
      bufferEncoder := DownloadModel(modelConfig.encoderUrl, store, net);
      bufferDecoder := DownloadModel(modelConfig.decoderUrl, store, net);
    }

    /** `getEncoderSession`: the memoised session, created on first use. A
        failed creation throws and leaves the field unset. */
    method GetEncoderSession(engine: Engine) returns (r: Result<SessionPair>)
      modifies this
      ensures old(sessionEncoder).Some? ==> r == Ok(old(sessionEncoder).value) && sessionEncoder == old(sessionEncoder)
      ensures old(sessionEncoder).None? ==> r == FirstSession(engine, bufferEncoder, ExecutionProviders)
      ensures sessionEncoder == if r.Ok? then Some(r.value) else None
      ensures r.Throw? ==> r.error == NoBackendAvailable
      ensures bufferEncoder == old(bufferEncoder) && bufferDecoder == old(bufferDecoder)
      ensures sessionDecoder == old(sessionDecoder) && imageEncoded == old(imageEncoded)
    {
      if sessionEncoder.None? {
        var s, _ := GetOrtSession(engine, bufferEncoder);
        if s.Throw? {
          return s;
        }
        sessionEncoder := Some(s.value);
      }
      r := Ok(sessionEncoder.value);
    }

    /** `getDecoderSession`: as `getEncoderSession`, for the decoder. */
    method GetDecoderSession(engine: Engine) returns (r: Result<SessionPair>)
      modifies this
      ensures old(sessionDecoder).Some? ==> r == Ok(old(sessionDecoder).value) && sessionDecoder == old(sessionDecoder)
      ensures old(sessionDecoder).None? ==> r == FirstSession(engine, bufferDecoder, ExecutionProviders)
      ensures sessionDecoder == if r.Ok? then Some(r.value) else None
      ensures r.Throw? ==> r.error == NoBackendAvailable
      ensures bufferEncoder == old(bufferEncoder) && bufferDecoder == old(bufferDecoder)
      ensures sessionEncoder == old(sessionEncoder) && imageEncoded == old(imageEncoded)
    {
      if sessionDecoder.None? {
        var s, _ := GetOrtSession(engine, bufferDecoder);
        if s.Throw? {
          return s;
        }
        sessionDecoder := Some(s.value);
      }
      r := Ok(sessionDecoder.value);
    }

    /** `createSessions`: opens the encoder session, then the decoder
        session; either failure propagates. On success the report names the
        encoder's provider, whatever provider the decoder got. */
    method CreateSessions(engine: Engine) returns (r: Result<Report>)
      modifies this
      ensures r.Ok? <==> sessionEncoder.Some? && sessionDecoder.Some?
      ensures r.Ok? ==> r.value == Report(true, Some(sessionEncoder.value.ep))
      ensures r.Throw? ==> r.error == NoBackendAvailable
      ensures sessionEncoder == Memoised(old(sessionEncoder), engine, bufferEncoder)
      ensures sessionEncoder.Some? ==> sessionDecoder == Memoised(old(sessionDecoder), engine, bufferDecoder)
      ensures sessionEncoder.None? ==> sessionDecoder == old(sessionDecoder)
      ensures bufferEncoder == old(bufferEncoder) && bufferDecoder == old(bufferDecoder)
      ensures imageEncoded == old(imageEncoded)
    {
      var enc := GetEncoderSession(engine);
      if enc.Throw? {
        return Throw(enc.error);
      }
      var dec := GetDecoderSession(engine);
      if dec.Throw? {
        return Throw(dec.error);
      }
      r := Ok(Report(true, Some(sessionEncoder.value.ep)));
    }

    /** `encodeImage`: runs the encoder session on the input under the
        configured input name and binds its outputs by position. A failure
        to open the session or a rejected run throws and keeps the previous
        binding. */
    method EncodeImage(inputTensor: Tensor, engine: Engine) returns (r: Result<()>)
      modifies this
      ensures sessionEncoder == Memoised(old(sessionEncoder), engine, bufferEncoder)
      ensures sessionEncoder.None? ==> r == Throw(NoBackendAvailable)
      ensures sessionEncoder.Some? ==>
        var run := engine.encode(sessionEncoder.value.session, modelConfig.encoderInputName, inputTensor);
        (run.Ok? ==> r == Ok(()) && imageEncoded == Bind(modelType, run.value, old(imageEncoded))) &&
        (run.Throw? ==> r == Throw(run.error))
      ensures r.Throw? ==> imageEncoded == old(imageEncoded)
      ensures bufferEncoder == old(bufferEncoder) && bufferDecoder == old(bufferDecoder)
      ensures sessionDecoder == old(sessionDecoder)
    {
      var s := GetEncoderSession(engine);
      if s.Throw? {
        return Throw(s.error);
      }
      var results := engine.encode(s.value.session, modelConfig.encoderInputName, inputTensor);
      if results.Throw? {
        return Throw(results.error);
      }
      if modelType == Sam2 {
        imageEncoded := Some(EncodedImage(Output(results.value, 0), Output(results.value, 1), Output(results.value, 2)));
      } else if modelType == MobileSam {
        imageEncoded := Some(EncodedImage(None, None, Output(results.value, 0)));
      }
      r := Ok(());
    }

    /** `decode`: runs the decoder session on the assembled inputs. Without an
        encoded image the input assembly reads through `null` and throws. */
    method Decode(points: seq<Point>, masks: Option<Tensor>, engine: Engine) returns (r: Result<MaskResult>)
      modifies this
      ensures sessionDecoder == Memoised(old(sessionDecoder), engine, bufferDecoder)
      ensures sessionDecoder.None? ==> r == Throw(NoBackendAvailable)
      ensures sessionDecoder.Some? && imageEncoded.None? ==> r == Throw(NullReference("image_encoded"))
      ensures sessionDecoder.Some? && imageEncoded.Some? ==>
        r == engine.decode(sessionDecoder.value.session,
                           DecoderFeeds(modelType, modelConfig.imageSize, imageEncoded.value, points, masks))
      ensures bufferEncoder == old(bufferEncoder) && bufferDecoder == old(bufferDecoder)
      ensures sessionEncoder == old(sessionEncoder) && imageEncoded == old(imageEncoded)
    {
      var s := GetDecoderSession(engine);
      if s.Throw? {
        return Throw(s.error);
      }
      if imageEncoded.None? {
        return Throw(NullReference("image_encoded"));
      }
      var feeds := DecoderFeeds(modelType, modelConfig.imageSize, imageEncoded.value, points, masks);
      r := engine.decode(s.value.session, feeds);
    }
  }
}
