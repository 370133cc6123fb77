/**
 * The memory formulas and the human-readable formatter of pkg/calc/utils.go.
 * Byte counts are reals; the Go float64 arithmetic is taken as exact.
 */
module Calc {
  import opened Config
  import opened Decimal

  /** The units `FormatMemory` can print, each a power of 1024 bytes. */
  datatype Unit = B | KB | MB | GB | TB | PB

  function Scale(u: Unit): (m: real)
    ensures m >= 1.0
  {
    match u
    case B => 1.0
    case KB => 1024.0
    case MB => 1048576.0
    case GB => 1073741824.0
    case TB => 1099511627776.0
    case PB => 1125899906842624.0
  }

  function Label(u: Unit): string {
    match u
    case B => "B"
    case KB => "KB"
    case MB => "MB"
    case GB => "GB"
    case TB => "TB"
    case PB => "PB"
  }

  /**
   * The unit `FormatMemory` picks: the largest one whose size the byte count
   * reaches, and bytes ("B") below one KB, zero and negative counts included.
   */
  function UnitFor(bytes: real): (u: Unit)
    ensures u != B ==> bytes >= Scale(u)
    ensures u != PB ==> bytes < Scale(u) * 1024.0
  {
    if bytes >= Scale(PB) then PB
    else if bytes >= Scale(TB) then TB
    else if bytes >= Scale(GB) then GB
    else if bytes >= Scale(MB) then MB
    else if bytes >= Scale(KB) then KB
    else B
  }

  /** `FormatMemory`: the count in its unit with two decimals, a space, and the unit's label. */
  function FormatMemory(bytes: real): string {
    var u := UnitFor(bytes);
    FixedTwo(bytes / Scale(u)) + " " + Label(u)
  }

  /** The scaled value lies in [1, 1024) for KB to TB, is at least 1 for PB, and below 1024 for B. */
  lemma ScaledValueRange(bytes: real)
    ensures var u := UnitFor(bytes);
            && (u != B ==> bytes / Scale(u) >= 1.0)
            && (u != PB ==> bytes / Scale(u) < 1024.0)
            && (bytes <= 0.0 ==> u == B)
  {
  }

  const Billion: real := 1000000000.0

  /** One binary gigabyte, the unit GB figures are converted to. */
  const GiB: real := 1073741824.0

  /** `GetModelWeights`: billions of parameters times bytes per element; 0 for an unknown precision. */
  function GetModelWeights(modelSize: real, precision: string): (r: real)
    ensures precision !in DataTypeSizes ==> r == 0.0
    ensures modelSize >= 0.0 ==> r >= 0.0
  {
    if precision in DataTypeSizes then modelSize * Billion * DataTypeSizes[precision] else 0.0
  }

  /** `GetKVCache`: a key and a value tensor per layer; 0 for an unknown precision. */
  function GetKVCache(batchSize: int, seqLength: int, numLayers: int, hiddenSize: int, precision: string): (r: real)
    ensures precision !in DataTypeSizes ==> r == 0.0
  {
    if precision in DataTypeSizes then
      var size := DataTypeSizes[precision];
      2.0 * batchSize as real * seqLength as real * numLayers as real * hiddenSize as real * size
    else
      0.0
  }

  /** Both weights and key/value cache scale with the precision's size: float32 is twice float16, and so on. */
  lemma PrecisionScaling(modelSize: real, batchSize: int, seqLength: int, numLayers: int, hiddenSize: int)
    ensures GetModelWeights(modelSize, "float32") == 2.0 * GetModelWeights(modelSize, "float16")
    ensures GetModelWeights(modelSize, "bfloat16") == GetModelWeights(modelSize, "float16")
    ensures GetModelWeights(modelSize, "float16") == 2.0 * GetModelWeights(modelSize, "int8")
    ensures GetModelWeights(modelSize, "int8") == 2.0 * GetModelWeights(modelSize, "int4")
    ensures GetKVCache(batchSize, seqLength, numLayers, hiddenSize, "float32") ==
            2.0 * GetKVCache(batchSize, seqLength, numLayers, hiddenSize, "float16")
    ensures GetKVCache(batchSize, seqLength, numLayers, hiddenSize, "bfloat16") ==
            GetKVCache(batchSize, seqLength, numLayers, hiddenSize, "float16")
    ensures GetKVCache(batchSize, seqLength, numLayers, hiddenSize, "float16") ==
            2.0 * GetKVCache(batchSize, seqLength, numLayers, hiddenSize, "int8")
    ensures GetKVCache(batchSize, seqLength, numLayers, hiddenSize, "int8") ==
            2.0 * GetKVCache(batchSize, seqLength, numLayers, hiddenSize, "int4")
  {
    var p := batchSize as real * seqLength as real * numLayers as real * hiddenSize as real;
    assert GetKVCache(batchSize, seqLength, numLayers, hiddenSize, "float32") == 2.0 * p * 4.0;
    assert GetKVCache(batchSize, seqLength, numLayers, hiddenSize, "float16") == 2.0 * p * 2.0;
    assert GetKVCache(batchSize, seqLength, numLayers, hiddenSize, "bfloat16") == 2.0 * p * 2.0;
    assert GetKVCache(batchSize, seqLength, numLayers, hiddenSize, "int8") == 2.0 * p * 1.0;
    assert GetKVCache(batchSize, seqLength, numLayers, hiddenSize, "int4") == 2.0 * p * 0.5;
  }

  const ActivationPrecision: string := "float32"

  /**
   * `GetActivationMemory`: always at float32, whatever precision is asked for;
   * the layer count is not used either. A hidden size of 0 is excluded: Go
   * would divide by zero and produce an IEEE infinity.
   */
  function GetActivationMemory(batchSize: int, seqLength: int, numLayers: int, hiddenSize: int, numHeads: int,
                               precision: string): real
    requires hiddenSize != 0
  {
    if ActivationPrecision in DataTypeSizes then
      var size := DataTypeSizes[ActivationPrecision];
      var activationFactor := 34.0 + (5.0 * seqLength as real * numHeads as real) / hiddenSize as real;
      batchSize as real * seqLength as real * hiddenSize as real * activationFactor * size
    else
      0.0
  }

  /**
   * Activation memory in closed form: 4 bytes for each of
   * batch * seq * (34 * hidden + 5 * seq * heads) elements, independent of
   * the precision and layer arguments.
   */
  lemma ActivationClosedForm(batchSize: int, seqLength: int, numLayers: int, hiddenSize: int, numHeads: int,
                             precision: string)
    requires hiddenSize != 0
    ensures GetActivationMemory(batchSize, seqLength, numLayers, hiddenSize, numHeads, precision) ==
            4.0 * batchSize as real * seqLength as real *
            (34.0 * hiddenSize as real + 5.0 * seqLength as real * numHeads as real)
  {
    var b, s, h, n := batchSize as real, seqLength as real, hiddenSize as real, numHeads as real;
    var x := 5.0 * s * n;
    assert h * (x / h) == x;
    var bs := b * s;
    assert bs * h * (34.0 + x / h) == bs * (34.0 * h + h * (x / h));
    assert GetActivationMemory(batchSize, seqLength, numLayers, hiddenSize, numHeads, precision) ==
           bs * h * (34.0 + x / h) * 4.0;
  }

  /** `GetOptimizerMemory`: 8 bytes per trainable parameter for AdamW and Adam, 2 for QAdamW, 4 for SGD, none otherwise. */
  function GetOptimizerMemory(trainableParams: real, optimizer: string): real {
    var actualParams := trainableParams * Billion;
    if optimizer == "AdamW" || optimizer == "Adam" then actualParams * 8.0
    else if optimizer == "QAdamW" then actualParams * 2.0
    else if optimizer == "SGD" then actualParams * 4.0
    else 0.0
  }

  /** `GetGradientMemory`: gradients are kept at float32 whatever the precision. */
  function GetGradientMemory(trainableParams: real): real {
    var actualParams := trainableParams * Billion;
    actualParams * 4.0
  }

  /**
   * How the optimizers compare: Adam and AdamW agree, QAdamW keeps a quarter
   * of their state and SGD half; an unknown name keeps none. Gradients weigh
   * as much as float32 weights of the trainable parameters.
   */
  lemma OptimizerAndGradientRatios(trainableParams: real, optimizer: string)
    ensures GetOptimizerMemory(trainableParams, "Adam") == GetOptimizerMemory(trainableParams, "AdamW")
    ensures GetOptimizerMemory(trainableParams, "AdamW") == 4.0 * GetOptimizerMemory(trainableParams, "QAdamW")
    ensures GetOptimizerMemory(trainableParams, "AdamW") == 2.0 * GetOptimizerMemory(trainableParams, "SGD")
    ensures GetOptimizerMemory(trainableParams, "SGD") == GetGradientMemory(trainableParams)
    ensures optimizer !in {"AdamW", "Adam", "QAdamW", "SGD"} ==> GetOptimizerMemory(trainableParams, optimizer) == 0.0
    ensures GetGradientMemory(trainableParams) == GetModelWeights(trainableParams, "float32")
  {
  }

  /** The inference total: weights, key/value cache and activations. */
  function InferenceBytes(modelSize: real, precision: string, batchSize: int, seqLength: int, hiddenSize: int,
                          numLayers: int, numHeads: int): real
    requires hiddenSize != 0
  {
    GetModelWeights(modelSize, precision) + GetKVCache(batchSize, seqLength, numLayers, hiddenSize, precision) +
    GetActivationMemory(batchSize, seqLength, numLayers, hiddenSize, numHeads, precision)
  }

  /** The training total: the inference total plus optimizer state and gradients. */
  function TrainingBytes(modelSize: real, precision: string, batchSize: int, seqLength: int, hiddenSize: int,
                         numLayers: int, numHeads: int, optimizer: string, trainableParams: real): real
    requires hiddenSize != 0
  {
    var inferenceMem := InferenceBytes(modelSize, precision, batchSize, seqLength, hiddenSize, numLayers, numHeads);
    var trainingSpecificMem := GetOptimizerMemory(trainableParams, optimizer) + GetGradientMemory(trainableParams);
    inferenceMem + trainingSpecificMem
  }

  /** The keys of the figure maps; `Key` spells each one as the maps do. */
  datatype Figure =
    | ModelWeights | KVCache | ActivationMemory | InferenceMemory
    | OptimizerMemory | GradientsMemory | TrainingMemory

  function Key(f: Figure): string {
    match f
    case ModelWeights => "model_weights"
    case KVCache => "kv_cache"
    case ActivationMemory => "activation_memory"
    case InferenceMemory => "inference_memory"
    case OptimizerMemory => "optimizer_memory"
    case GradientsMemory => "gradients_memory"
    case TrainingMemory => "training_memory"
  }

  /** No two figures share a key, so keying by figure loses nothing. */
  lemma KeysDistinct(f: Figure, g: Figure)
    requires Key(f) == Key(g)
    ensures f == g
  {
    assert |Key(f)| == |Key(g)| && Key(f)[0] == Key(g)[0];
  }

  /** Each figure's byte count rendered by `FormatMemory`. */
  function Formatted(bytes: map<Figure, real>): (m: map<Figure, string>)
  {
    map f | f in bytes :: FormatMemory(bytes[f])
  }

  /** The byte counts behind `CalculateInferenceMemory`'s four figures. */
  function InferenceBytesByFigure(modelSize: real, precision: string, batchSize: int, seqLength: int,
                                  hiddenSize: int, numLayers: int, numHeads: int): map<Figure, real>
    requires hiddenSize != 0
  {
    map[
      ModelWeights := GetModelWeights(modelSize, precision),
      KVCache := GetKVCache(batchSize, seqLength, numLayers, hiddenSize, precision),
      ActivationMemory := GetActivationMemory(batchSize, seqLength, numLayers, hiddenSize, numHeads, precision),
      InferenceMemory := InferenceBytes(modelSize, precision, batchSize, seqLength, hiddenSize, numLayers, numHeads)
    ]
  }

  /** The byte counts behind `CalculateTrainingMemory`'s seven figures. */
  function TrainingBytesByFigure(modelSize: real, precision: string, batchSize: int, seqLength: int,
                                 hiddenSize: int, numLayers: int, numHeads: int, optimizer: string,
                                 trainableParams: real): map<Figure, real>
    requires hiddenSize != 0
  {
    map[
      ModelWeights := GetModelWeights(modelSize, precision),
      KVCache := GetKVCache(batchSize, seqLength, numLayers, hiddenSize, precision),
      ActivationMemory := GetActivationMemory(batchSize, seqLength, numLayers, hiddenSize, numHeads, precision),
      OptimizerMemory := GetOptimizerMemory(trainableParams, optimizer),
      GradientsMemory := GetGradientMemory(trainableParams),
      InferenceMemory := InferenceBytes(modelSize, precision, batchSize, seqLength, hiddenSize, numLayers, numHeads),
      TrainingMemory := TrainingBytes(modelSize, precision, batchSize, seqLength, hiddenSize, numLayers,
                                      numHeads, optimizer, trainableParams)
    ]
  }

  /** `CalculateInferenceMemory`: the four formatted inference figures by key. */
  function CalculateInferenceMemory(modelSize: real, precision: string, batchSize: int, seqLength: int,
                                    hiddenSize: int, numLayers: int, numHeads: int): (figures: map<Figure, string>)
    requires hiddenSize != 0
    ensures figures.Keys == {ModelWeights, KVCache, ActivationMemory, InferenceMemory}
  {
    Formatted(InferenceBytesByFigure(modelSize, precision, batchSize, seqLength, hiddenSize, numLayers, numHeads))
  }

  /** `CalculateTrainingMemory`: the seven formatted training figures by key. */
  function CalculateTrainingMemory(modelSize: real, precision: string, batchSize: int, seqLength: int,
                                   hiddenSize: int, numLayers: int, numHeads: int, optimizer: string,
                                   trainableParams: real): (figures: map<Figure, string>)
    requires hiddenSize != 0
    ensures figures.Keys ==
            {ModelWeights, KVCache, ActivationMemory, OptimizerMemory, GradientsMemory, InferenceMemory, TrainingMemory}
  {
    Formatted(TrainingBytesByFigure(modelSize, precision, batchSize, seqLength, hiddenSize, numLayers, numHeads,
                                    optimizer, trainableParams))
  }

  /** A byte map that agrees with another on all of its keys still agrees once both are formatted. */
  lemma FormattedExtends(small: map<Figure, real>, large: map<Figure, real>)
    requires small.Keys <= large.Keys
    requires forall key :: key in small ==> large[key] == small[key]
    ensures Formatted(small).Keys == small.Keys && Formatted(large).Keys == large.Keys
    ensures forall key :: key in Formatted(small) ==> Formatted(large)[key] == Formatted(small)[key]
  {
  }

  /** The training map holds every inference entry unchanged and adds exactly the optimizer, gradient and training figures. */
  lemma TrainingMapExtendsInference(modelSize: real, precision: string, batchSize: int, seqLength: int,
                                    hiddenSize: int, numLayers: int, numHeads: int, optimizer: string,
                                    trainableParams: real)
    requires hiddenSize != 0
    ensures var inference := CalculateInferenceMemory(modelSize, precision, batchSize, seqLength, hiddenSize, numLayers, numHeads);
            var training := CalculateTrainingMemory(modelSize, precision, batchSize, seqLength, hiddenSize, numLayers,
                                                    numHeads, optimizer, trainableParams);
            && training.Keys == inference.Keys + {OptimizerMemory, GradientsMemory, TrainingMemory}
            && (forall key :: key in inference ==> training[key] == inference[key])
  {
    var inference := InferenceBytesByFigure(modelSize, precision, batchSize, seqLength, hiddenSize, numLayers, numHeads);
    var training := TrainingBytesByFigure(modelSize, precision, batchSize, seqLength, hiddenSize, numLayers,
                                          numHeads, optimizer, trainableParams);
    assert inference.Keys == {ModelWeights, KVCache, ActivationMemory, InferenceMemory};
    assert training.Keys == inference.Keys + {OptimizerMemory, GradientsMemory, TrainingMemory};
    FormattedExtends(inference, training);
  }

  /**
   * The training total is the sum of all five components, and never below
   * the inference total when the trainable count is not negative.
   */
  lemma TrainingTotalDecomposes(modelSize: real, precision: string, batchSize: int, seqLength: int,
                                hiddenSize: int, numLayers: int, numHeads: int, optimizer: string,
                                trainableParams: real)
    requires hiddenSize != 0
    ensures TrainingBytes(modelSize, precision, batchSize, seqLength, hiddenSize, numLayers, numHeads, optimizer, trainableParams) ==
            GetModelWeights(modelSize, precision) + GetKVCache(batchSize, seqLength, numLayers, hiddenSize, precision) +
            GetActivationMemory(batchSize, seqLength, numLayers, hiddenSize, numHeads, precision) +
            GetOptimizerMemory(trainableParams, optimizer) + GetGradientMemory(trainableParams)
    ensures trainableParams >= 0.0 ==>
            TrainingBytes(modelSize, precision, batchSize, seqLength, hiddenSize, numLayers, numHeads, optimizer, trainableParams) >=
            InferenceBytes(modelSize, precision, batchSize, seqLength, hiddenSize, numLayers, numHeads)
  {
  }

  /** 7 billion parameters at float16 take 14,000,000,000 bytes, shown as "13.04 GB". */
  lemma SevenBillionAtFloat16()
    ensures GetModelWeights(7.0, "float16") == 14000000000.0
    ensures FormatMemory(14000000000.0) == "13.04 GB"
  {
    FormatsAs(14000000000.0, GB, 1073741824.0, 1304, "13.04");
  }

  /** Batch 1, 4096 tokens, 32 layers of width 4096 at float16: a 2 GiB key/value cache, "2.00 GB". */
  lemma KVCacheExample()
    ensures GetKVCache(1, 4096, 32, 4096, "float16") == 2147483648.0
    ensures FormatMemory(2147483648.0) == "2.00 GB"
  {
    FormatsAs(2147483648.0, GB, 1073741824.0, 200, "2.00");
  }

  /** AdamW over 7 billion trainable parameters keeps 56,000,000,000 bytes of state, "52.15 GB". */
  lemma AdamWExample()
    ensures GetOptimizerMemory(7.0, "AdamW") == 56000000000.0
    ensures FormatMemory(56000000000.0) == "52.15 GB"
  {
    FormatsAs(56000000000.0, GB, 1073741824.0, 5215, "52.15");
  }

  /** The float32 gradients of 7 billion trainable parameters take 28,000,000,000 bytes, "26.08 GB". */
  lemma GradientsExample()
    ensures GetGradientMemory(7.0) == 28000000000.0
    ensures FormatMemory(28000000000.0) == "26.08 GB"
  {
    FormatsAs(28000000000.0, GB, 1073741824.0, 2608, "26.08");
  }

  /**
   * A positive count that falls in unit u (of the given scale) and rounds to h
   * hundredths (nearest, an exact half to the even one) prints as text then u's label.
   */
  lemma FormatsAs(bytes: real, u: Unit, scale: real, h: nat, text: string)
    requires bytes > 0.0 && UnitFor(bytes) == u && scale == Scale(u)
    requires h as real - 0.5 <= bytes / scale * 100.0 <= h as real + 0.5
    requires (h as real == bytes / scale * 100.0 - 0.5 || h as real == bytes / scale * 100.0 + 0.5) ==> h % 2 == 0
    requires text == HundredthsText(h)
    ensures FormatMemory(bytes) == text + " " + Label(u)
  {
    var x := bytes / scale;
    assert x > 0.0 && Abs(x) == x;
    NearestEvenUnique(x * 100.0, Hundredths(x), h);
    assert FormatMemory(bytes) == FixedTwo(x) + " " + Label(u);
  }

  /**
   * An exact tie: 1152 bytes (a key/value cache of batch 1, 9 tokens, one layer
   * of width 16 at float32) is 1.125 KB, printed "1.12 KB" with the half
   * going to the even hundredth.
   */
  lemma TieRoundsToEven()
    ensures GetKVCache(1, 9, 1, 16, "float32") == 1152.0
    ensures FormatMemory(1152.0) == "1.12 KB"
  {
    FormatsAs(1152.0, KB, 1024.0, 112, "1.12");
  }
}
