/** The registry of model variants (app/modelConfig.js): one descriptor per
    variant and the identifier of the default variant. */
module ModelConfig {
  import opened Common

  /** The `modelType` tag. Only two tags occur in the table; any other string
      is kept as `OtherType` because the engine treats it differently. */
  datatype ModelType = Sam2 | MobileSam | OtherType(tag: string)

  /** The `tensorFormat` tag. */
  datatype Layout = CHW | HWC

  /** Per-channel `(pixel * scale - mean[c]) / std[c]` parameters. */
  datatype Normalization = Normalization(mean: seq<real>, std: seq<real>, scale: real)

  datatype Descriptor = Descriptor(
    id: string,
    name: string,
    description: string,
    encoderUrl: string,
    decoderUrl: string,
    imageSize: Size,
    maskSize: Size,
    modelType: ModelType,
    encoderInputName: string,
    useBatchDimension: bool,
    tensorFormat: Layout,
    normalization: Option<Normalization>,
    inputRange: Option<real>)

  const MobileSamTiny := Descriptor(
    "mobilesam_tiny",
    "Mobile SAM Tiny",
    "Mobile SAM Tiny (45 MB, TinyViT encoder)",
    "https://huggingface.co/Acly/MobileSAM/resolve/main/mobile_sam_image_encoder.onnx",
    "https://huggingface.co/Acly/MobileSAM/resolve/main/sam_mask_decoder_multi.onnx",
    Size(1024, 1024),
    Size(256, 256),
    MobileSam,
    "input_image",
    false,
    HWC,
    None,
    Some(255.0))

  const Sam2Tiny := Descriptor(
    "sam2_tiny",
    "Meta's SAM2 Tiny",
    "Meta's SAM2 Tiny (151 MB, Hiera encoder)",
    "https://huggingface.co/g-ronimo/sam2-tiny/resolve/main/sam2_hiera_tiny_encoder.with_runtime_opt.ort",
    "https://huggingface.co/g-ronimo/sam2-tiny/resolve/main/sam2_hiera_tiny_decoder_pr1.onnx",
    Size(1024, 1024),
    Size(256, 256),
    Sam2,
    "image",
    true,
    CHW,
    None,
    None)

  /** `MODEL_CONFIG`. */
  const ModelTable: map<string, Descriptor> :=
    map["mobilesam_tiny" := MobileSamTiny, "sam2_tiny" := Sam2Tiny]

  /** `DEFAULT_MODEL`. */
  const DefaultModel: string := "sam2_tiny"

  /** `MODEL_CONFIG[id]`: `undefined` (here `None`) for an identifier that is
      not registered; there is no error. */
  function Lookup(id: string): (d: Option<Descriptor>)
    ensures d.Some? <==> id in ModelTable
    ensures d.Some? ==> d.value.id == id
  {
    if id in ModelTable then Some(ModelTable[id]) else None
  }

  /** The descriptor an engine falls back to when it is given none. */
  function DefaultDescriptor(): (d: Descriptor)
    ensures Lookup(DefaultModel) == Some(d)
    ensures d.id == DefaultModel
  {
    ModelTable[DefaultModel]
  }

  /** The default identifier is registered. */
  lemma DefaultModelRegistered()
    ensures DefaultModel in ModelTable
  {
  }

  /** Every entry's `id` equals the key it is registered under. */
  lemma IdsMatchKeys()
    ensures forall k :: k in ModelTable ==> ModelTable[k].id == k
  {
  }

  /** The HWC entry drops the batch dimension and the CHW entry keeps it, so
      the worker's HWC-with-batch branch is never taken by a registered model. */
  lemma LayoutMatchesBatchFlag()
    ensures forall k :: k in ModelTable ==>
      (ModelTable[k].tensorFormat == HWC <==> !ModelTable[k].useBatchDimension)
  {
  }

  /** Every entry encodes 1024x1024 images and decodes 256x256 masks, the size
      of the dummy mask the engine builds. */
  lemma UniformSizes()
    ensures forall k :: k in ModelTable ==>
      ModelTable[k].imageSize == Size(1024, 1024) && ModelTable[k].maskSize == Size(256, 256)
  {
  }

  /** Only the MobileSAM entry rescales its input range (by 255); no entry
      carries normalization parameters. */
  lemma InputConventions()
    ensures forall k :: k in ModelTable ==>
      ModelTable[k].normalization.None? &&
      (ModelTable[k].inputRange.Some? <==> ModelTable[k].modelType == MobileSam) &&
      (ModelTable[k].inputRange.Some? ==> ModelTable[k].inputRange.value == 255.0)
  {
  }
}
