/**
 * The Python/Streamlit variant of the estimator, python/utils.py: the same
 * formulas with Python's edge rules. The precision and optimizer tables it
 * imports from its `config` module are parameters here (`sizes`,
 * `optimizers`), and so is the text Python's `str()` gives for a byte total
 * below 1024 (`bytesText`).
 */
module PythonUtils {
  import opened Wrappers
  import opened Decimal
  import Config
  import Calc


  /** The marker `get_memory` appends when some addend was dropped. */
  const Marker: string := " * "

  // ---------------------------------------------------------------- get_memory

  /** The sum of the strictly positive addends, in order. */
  function PositiveSum(args: seq<real>): real
    decreases |args|
  {
    if args == [] then 0.0
    else
      var last := args[|args| - 1];
      PositiveSum(args[..|args| - 1]) + (if last > 0.0 then last else 0.0)
  }

  /** The plain sum, the reference when nothing is dropped. */
  function Sum(args: seq<real>): real
    decreases |args|
  {
    if args == [] then 0.0 else Sum(args[..|args| - 1]) + args[|args| - 1]
  }

  predicate AnyDropped(args: seq<real>) {
    exists i :: 0 <= i < |args| && args[i] <= 0.0
  }

  predicate AnyPositive(args: seq<real>) {
    exists i :: 0 <= i < |args| && args[i] > 0.0
  }

  /** The unit Python prints a total of at least 1024 bytes in: KB, MB, GB, and TB from 1 TB up. */
  function PyUnit(total: real): Calc.Unit {
    if total < 1048576.0 then Calc.KB
    else if total < 1073741824.0 then Calc.MB
    else if total < 1099511627776.0 then Calc.GB
    else Calc.TB
  }

  /** The rendering of a total: blank for 0, raw bytes below 1024, otherwise two decimals in its unit. */
  function Render(total: real, bytesText: real -> string): string {
    if total == 0.0 then ""
    else if total < 1024.0 then bytesText(total) + " Bytes"
    else
      var u := PyUnit(total);
      FixedTwo(total / Calc.Scale(u)) + " " + Calc.Label(u)
  }

  /** What `get_memory(*args)` returns. */
  function GetMemoryText(args: seq<real>, bytesText: real -> string): string {
    Render(PositiveSum(args), bytesText) + (if AnyDropped(args) then Marker else "")
  }

  /** `get_memory`: add up the positive addends, note any other, then render the total. */
  method GetMemory(args: seq<real>, bytesText: real -> string) returns (result: string)
    ensures result == GetMemoryText(args, bytesText)
  {
    var total := 0.0;
    var warning := false;
    var i := 0;
    while i < |args|
      invariant 0 <= i <= |args|
      invariant total == PositiveSum(args[..i])
      invariant warning <==> AnyDropped(args[..i])
    {
      var arg := args[i];
      assert args[..i + 1][..i] == args[..i];
      assert args[..i + 1][i] == arg;
      if arg > 0.0 {
        total := total + arg;
      } else {
        warning := true;
      }
      i := i + 1;
    }
    assert args[..i] == args;
    result := Render(total, bytesText);
    result := result + (if warning then Marker else "");
  }

  /**
   * The positive sum is never negative, is 0 exactly when no addend is
   * positive, and is the plain sum when nothing is dropped.
   */
  lemma {:induction false} PositiveSumFacts(args: seq<real>)
    ensures PositiveSum(args) >= 0.0
    ensures PositiveSum(args) == 0.0 <==> !AnyPositive(args)
    ensures !AnyDropped(args) ==> PositiveSum(args) == Sum(args)
    decreases |args|
  {
    if args != [] {
      var front := args[..|args| - 1];
      PositiveSumFacts(front);
      assert forall i :: 0 <= i < |front| ==> front[i] == args[i];
      if AnyPositive(front) {
        var i :| 0 <= i < |front| && front[i] > 0.0;
        assert args[i] > 0.0;
      }
      if AnyDropped(front) {
        var i :| 0 <= i < |front| && front[i] <= 0.0;
        assert args[i] <= 0.0;
      }
    }
  }

  /** A rendered total never ends in a space. */
  lemma RenderEndsInLetter(total: real, bytesText: real -> string)
    ensures var t := Render(total, bytesText); |t| > 0 ==> t[|t| - 1] != ' '
  {
  }

  /** The result ends in a space (the marker's last character) exactly when some addend was dropped. */
  lemma MarkerIffDropped(args: seq<real>, bytesText: real -> string)
    ensures var m := GetMemoryText(args, bytesText); (|m| > 0 && m[|m| - 1] == ' ') <==> AnyDropped(args)
  {
    RenderEndsInLetter(PositiveSum(args), bytesText);
    var t := Render(PositiveSum(args), bytesText);
    if AnyDropped(args) {
      assert GetMemoryText(args, bytesText) == t + Marker;
    } else {
      assert GetMemoryText(args, bytesText) == t;
    }
  }

  /** When no addend is positive the result is blank, plus the marker if there was any addend at all. */
  lemma BlankWithoutPositives(args: seq<real>, bytesText: real -> string)
    requires !AnyPositive(args)
    ensures GetMemoryText(args, bytesText) == (if |args| > 0 then Marker else "")
  {
    PositiveSumFacts(args);
    if |args| > 0 {
      assert args[0] <= 0.0;
    }
  }

  /** Below 1 PB Python picks the unit Go picks; from 1 PB up it stays with TB. */
  lemma PyUnitAgainstGo(total: real)
    requires total >= 1024.0
    ensures total < Calc.Scale(Calc.PB) ==> PyUnit(total) == Calc.UnitFor(total)
    ensures total >= Calc.Scale(Calc.PB) ==> PyUnit(total) == Calc.TB && Calc.UnitFor(total) == Calc.PB
  {
  }

  /**
   * From 1 KB up to 1 PB the Python rendering is exactly the Go formatter's;
   * from 1 PB upward Python keeps counting in TB where Go switches to PB.
   */
  lemma AgreesWithGoFormatter(total: real, bytesText: real -> string)
    requires total >= 1024.0
    ensures total < Calc.Scale(Calc.PB) ==> Render(total, bytesText) == Calc.FormatMemory(total)
    ensures total >= Calc.Scale(Calc.PB) ==>
              Render(total, bytesText) == FixedTwo(total / Calc.Scale(Calc.TB)) + " " + Calc.Label(Calc.TB) &&
              Calc.FormatMemory(total) == FixedTwo(total / Calc.Scale(Calc.PB)) + " " + Calc.Label(Calc.PB)
  {
    PyUnitAgainstGo(total);
  }

  // ---------------------------------------------------------------- formulas

  /** `get_model_weights`: 0 when the precision is not in the table. */
  function GetModelWeights(modelSize: real, precision: string, sizes: map<string, real>): (r: real)
    ensures precision !in sizes ==> r == 0.0
    ensures sizes == Config.DataTypeSizes ==> r == Calc.GetModelWeights(modelSize, precision)
  {
    if precision in sizes then modelSize * sizes[precision] * Calc.Billion else 0.0
  }

  /** `get_kv_cache` (precision first, then batch, sequence, hidden, layers): 0 when the precision is missing. */
  function GetKVCache(precision: string, batchSize: int, sequenceLength: int, hiddenSize: int,
                      numHiddenLayers: int, sizes: map<string, real>): (r: real)
    ensures precision !in sizes ==> r == 0.0
    ensures sizes == Config.DataTypeSizes ==>
              r == Calc.GetKVCache(batchSize, sequenceLength, numHiddenLayers, hiddenSize, precision)
  {
    if precision in sizes then
      2.0 * batchSize as real * sequenceLength as real * numHiddenLayers as real * hiddenSize as real *
      sizes[precision]
    else
      0.0
  }

  /**
   * `get_activation_memory`: at float32 always; a hidden size of 0 divides by
   * zero, which the bare `except` turns into 0, as it does a missing float32.
   */
  function GetActivationMemory(batchSize: int, sequenceLength: int, hiddenSize: int, numAttentionHeads: int,
                               sizes: map<string, real>): (r: real)
    ensures hiddenSize == 0 || "float32" !in sizes ==> r == 0.0
  {
    if "float32" in sizes && hiddenSize != 0 then
      batchSize as real * sequenceLength as real * hiddenSize as real *
      (34.0 + (5.0 * sequenceLength as real * numAttentionHeads as real) / hiddenSize as real) * sizes["float32"]
    else
      0.0
  }

  /** With the shared table and a non-zero hidden size, activations agree with Go's whatever precision and layers Go is given. */
  lemma ActivationAgreesWithGo(batchSize: int, sequenceLength: int, numLayers: int, hiddenSize: int,
                               numAttentionHeads: int, precision: string)
    requires hiddenSize != 0
    ensures GetActivationMemory(batchSize, sequenceLength, hiddenSize, numAttentionHeads, Config.DataTypeSizes) ==
            Calc.GetActivationMemory(batchSize, sequenceLength, numLayers, hiddenSize, numAttentionHeads, precision)
  {
    Config.DataTypeSizesTable();
  }

  /** The per-parameter optimizer bytes the Go code hard-codes. */
  const GoOptimizerBytes: map<string, real> := map["AdamW" := 8.0, "Adam" := 8.0, "QAdamW" := 2.0, "SGD" := 4.0]

  /** `get_optimizer_memory`: bytes per parameter from the table; 0 for an unknown optimizer. */
  function GetOptimizerMemory(modelSize: real, optimizer: string, optimizers: map<string, real>): (r: real)
    ensures optimizer !in optimizers ==> r == 0.0
    ensures optimizers == GoOptimizerBytes ==> r == Calc.GetOptimizerMemory(modelSize, optimizer)
  {
    if optimizer in optimizers then optimizers[optimizer] * modelSize * Calc.Billion else 0.0
  }

  /** `get_gradient_memory`: its precision argument is replaced by float32. */
  function GetGradientMemory(modelSize: real, precision: string, sizes: map<string, real>): (r: real)
    ensures r == GetModelWeights(modelSize, "float32", sizes)
    ensures sizes == Config.DataTypeSizes ==> r == Calc.GetGradientMemory(modelSize)
  {
    var float32 := "float32";
    if float32 in sizes then sizes[float32] * modelSize * Calc.Billion else 0.0
  }

  /** Each figure's list of byte counts rendered by `get_memory`. */
  function Rendered(parts: map<Calc.Figure, seq<real>>, bytesText: real -> string): map<Calc.Figure, string>
  {
    map f | f in parts :: GetMemoryText(parts[f], bytesText)
  }

  /** The byte counts `calculate_inference_memory` hands to `get_memory`, figure by figure. */
  function InferenceParts(modelSize: real, precision: string, batchSize: int, sequenceLength: int,
                          hiddenSize: int, numHiddenLayers: int, numAttentionHeads: int,
                          sizes: map<string, real>): map<Calc.Figure, seq<real>>
  {
    var modelWeights := GetModelWeights(modelSize, precision, sizes);
    var kvCache := GetKVCache(precision, batchSize, sequenceLength, hiddenSize, numHiddenLayers, sizes);
    var activationMemory := GetActivationMemory(batchSize, sequenceLength, hiddenSize, numAttentionHeads, sizes);
    map[
      Calc.ModelWeights := [modelWeights],
      Calc.KVCache := [kvCache],
      Calc.ActivationMemory := [activationMemory],
      Calc.InferenceMemory := [modelWeights, kvCache, activationMemory]
    ]
  }

  /** `calculate_inference_memory`: the three components and their total, each through `get_memory`. */
  function CalculateInferenceMemory(modelSize: real, precision: string, batchSize: int, sequenceLength: int,
                                    hiddenSize: int, numHiddenLayers: int, numAttentionHeads: int,
                                    sizes: map<string, real>, bytesText: real -> string): (figures: map<Calc.Figure, string>)
    ensures figures.Keys == {Calc.ModelWeights, Calc.KVCache, Calc.ActivationMemory, Calc.InferenceMemory}
  {
    Rendered(InferenceParts(modelSize, precision, batchSize, sequenceLength, hiddenSize, numHiddenLayers,
                            numAttentionHeads, sizes), bytesText)
  }

  /** The optimizer bytes of training: the full figure scaled by the trainable percentage. */
  function TrainingOptimizerBytes(modelSize: real, optimizer: string, trainableParameters: real,
                                  optimizers: map<string, real>): real
  {
    GetOptimizerMemory(modelSize, optimizer, optimizers) * trainableParameters / 100.0
  }

  /** The gradient bytes of training: the full figure scaled by the trainable percentage. */
  function TrainingGradientBytes(modelSize: real, precision: string, trainableParameters: real,
                                 sizes: map<string, real>): real
  {
    GetGradientMemory(modelSize, precision, sizes) * trainableParameters / 100.0
  }

  /** The byte counts `calculate_training_memory` hands to `get_memory`, figure by figure. */
  function TrainingParts(modelSize: real, precision: string, batchSize: int, sequenceLength: int,
                         hiddenSize: int, numHiddenLayers: int, numAttentionHeads: int,
                         optimizer: string, trainableParameters: real, sizes: map<string, real>,
                         optimizers: map<string, real>): map<Calc.Figure, seq<real>>
  {
    var modelWeights := GetModelWeights(modelSize, precision, sizes);
    var kvCache := GetKVCache(precision, batchSize, sequenceLength, hiddenSize, numHiddenLayers, sizes);
    var activationMemory := GetActivationMemory(batchSize, sequenceLength, hiddenSize, numAttentionHeads, sizes);
    var optimizerMemory := TrainingOptimizerBytes(modelSize, optimizer, trainableParameters, optimizers);
    var gradientsMemory := TrainingGradientBytes(modelSize, precision, trainableParameters, sizes);
    map[
      Calc.ModelWeights := [modelWeights],
      Calc.KVCache := [kvCache],
      Calc.ActivationMemory := [activationMemory],
      Calc.OptimizerMemory := [optimizerMemory],
      Calc.GradientsMemory := [gradientsMemory],
      Calc.TrainingMemory := [modelWeights, kvCache, activationMemory, optimizerMemory, gradientsMemory]
    ]
  }

  /** `calculate_training_memory`: the inference figures, the two scaled training figures, and their total. */
  function CalculateTrainingMemory(modelSize: real, precision: string, batchSize: int, sequenceLength: int,
                                   hiddenSize: int, numHiddenLayers: int, numAttentionHeads: int,
                                   optimizer: string, trainableParameters: real, sizes: map<string, real>,
                                   optimizers: map<string, real>, bytesText: real -> string): (figures: map<Calc.Figure, string>)
    ensures figures.Keys == {Calc.ModelWeights, Calc.KVCache, Calc.ActivationMemory, Calc.OptimizerMemory,
                             Calc.GradientsMemory, Calc.TrainingMemory}
  {
    Rendered(TrainingParts(modelSize, precision, batchSize, sequenceLength, hiddenSize, numHiddenLayers,
                           numAttentionHeads, optimizer, trainableParameters, sizes, optimizers), bytesText)
  }

  /** Rendering keeps the keys, and figures with the same byte counts render alike. */
  lemma RenderedShares(small: map<Calc.Figure, seq<real>>, large: map<Calc.Figure, seq<real>>,
                       shared: set<Calc.Figure>, bytesText: real -> string)
    requires shared <= small.Keys && shared <= large.Keys
    requires forall key :: key in shared ==> large[key] == small[key]
    ensures Rendered(small, bytesText).Keys == small.Keys && Rendered(large, bytesText).Keys == large.Keys
    ensures forall key :: key in shared ==> Rendered(large, bytesText)[key] == Rendered(small, bytesText)[key]
  {
  }

  /**
   * The training map shares the three component entries of the inference
   * map, replaces the inference total by the training total, and adds the
   * optimizer and gradient figures.
   */
  lemma TrainingMapSharesComponents(modelSize: real, precision: string, batchSize: int, sequenceLength: int,
                                    hiddenSize: int, numHiddenLayers: int, numAttentionHeads: int,
                                    optimizer: string, trainableParameters: real, sizes: map<string, real>,
                                    optimizers: map<string, real>, bytesText: real -> string)
    ensures var inference := CalculateInferenceMemory(modelSize, precision, batchSize, sequenceLength, hiddenSize,
                                                      numHiddenLayers, numAttentionHeads, sizes, bytesText);
            var training := CalculateTrainingMemory(modelSize, precision, batchSize, sequenceLength, hiddenSize,
                                                    numHiddenLayers, numAttentionHeads, optimizer,
                                                    trainableParameters, sizes, optimizers, bytesText);
            && training.Keys == inference.Keys - {Calc.InferenceMemory} +
                                {Calc.OptimizerMemory, Calc.GradientsMemory, Calc.TrainingMemory}
            && forall key :: key in {Calc.ModelWeights, Calc.KVCache, Calc.ActivationMemory} ==>
                 training[key] == inference[key]
  {
    var inference := InferenceParts(modelSize, precision, batchSize, sequenceLength, hiddenSize,
                                    numHiddenLayers, numAttentionHeads, sizes);
    var training := TrainingParts(modelSize, precision, batchSize, sequenceLength, hiddenSize, numHiddenLayers,
                                  numAttentionHeads, optimizer, trainableParameters, sizes, optimizers);
    var shared := {Calc.ModelWeights, Calc.KVCache, Calc.ActivationMemory};
    assert inference.Keys == {Calc.ModelWeights, Calc.KVCache, Calc.ActivationMemory, Calc.InferenceMemory};
    assert training.Keys == inference.Keys - {Calc.InferenceMemory} +
                            {Calc.OptimizerMemory, Calc.GradientsMemory, Calc.TrainingMemory};
    RenderedShares(inference, training, shared, bytesText);
  }

  /**
   * A trainable percentage p makes the training figures Go's for a trainable
   * count of p percent of the model size, given the same tables.
   */
  lemma TrainablePercentage(modelSize: real, optimizer: string, precision: string, trainableParameters: real)
    ensures TrainingOptimizerBytes(modelSize, optimizer, trainableParameters, GoOptimizerBytes) ==
            Calc.GetOptimizerMemory(modelSize * trainableParameters / 100.0, optimizer)
    ensures TrainingGradientBytes(modelSize, precision, trainableParameters, Config.DataTypeSizes) ==
            Calc.GetGradientMemory(modelSize * trainableParameters / 100.0)
  {
    var t := modelSize * trainableParameters / 100.0;
    assert modelSize * Calc.Billion * trainableParameters / 100.0 == t * Calc.Billion;
  }

  // ---------------------------------------------------------------- LoRA

  datatype LoraUsage = LoraUsage(
    loraParametersGB: real,
    gradientsGB: real,
    optimizerStatesGB: real,
    activationMemoryGB: real,
    totalMemoryGB: real)

  /** The LoRA parameter count: two rank-r adapters of width hidden per layer and matrix pair, or 1% of the model size. */
  function LoraParams(modelSize: real, numLayers: int, hiddenSize: int, loraRank: int): real {
    if numLayers != 0 && hiddenSize != 0 then (numLayers * 2 * (2 * hiddenSize * loraRank)) as real
    else modelSize * 0.01
  }

  /** Activation bytes of one micro-batch; 0 when the hidden size is 0. */
  function LoraActivationBytes(batchSize: int, sequenceLength: int, hiddenSize: int, dtypeSize: real): real {
    if hiddenSize != 0 then (batchSize * sequenceLength * hiddenSize) as real * dtypeSize else 0.0
  }

  /**
   * `lora_memory_usage`: every figure in GB. Zero accumulation steps divide
   * by zero, which nothing catches: the result is then None.
   */
  function LoraMemoryUsage(modelSize: real, batchSize: int, sequenceLength: int, loraRank: int, dtypeSize: real,
                           numLayers: int, hiddenSize: int, gradientAccumulationSteps: int): (r: Option<LoraUsage>)
    ensures r.None? <==> gradientAccumulationSteps == 0
  {
    if gradientAccumulationSteps == 0 then None
    else
      var loraParamMemory := LoraParams(modelSize, numLayers, hiddenSize, loraRank) * dtypeSize;
      var gradientMemory := loraParamMemory;
      var optimizerMemory := loraParamMemory * 2.0;
      var effectiveBatchMemory :=
        LoraActivationBytes(batchSize, sequenceLength, hiddenSize, dtypeSize) / gradientAccumulationSteps as real;
      var totalMemory := loraParamMemory + gradientMemory + optimizerMemory + effectiveBatchMemory;
      Some(LoraUsage(loraParamMemory / Calc.GiB, gradientMemory / Calc.GiB, optimizerMemory / Calc.GiB,
                     effectiveBatchMemory / Calc.GiB, totalMemory / Calc.GiB))
  }

  /**
   * The LoRA figures: gradients weigh as much as the adapter parameters and
   * optimizer state twice as much; activations are shared across the
   * accumulation steps; the total is the sum of the four, which is four times
   * the parameter figure plus the activations.
   */
  lemma LoraBreakdown(modelSize: real, batchSize: int, sequenceLength: int, loraRank: int, dtypeSize: real,
                      numLayers: int, hiddenSize: int, gradientAccumulationSteps: int)
    requires gradientAccumulationSteps != 0
    ensures var u := LoraMemoryUsage(modelSize, batchSize, sequenceLength, loraRank, dtypeSize, numLayers, hiddenSize,
                                     gradientAccumulationSteps).value;
            && u.loraParametersGB * Calc.GiB == LoraParams(modelSize, numLayers, hiddenSize, loraRank) * dtypeSize
            && u.gradientsGB == u.loraParametersGB
            && u.optimizerStatesGB == 2.0 * u.loraParametersGB
            && u.activationMemoryGB * gradientAccumulationSteps as real * Calc.GiB ==
               LoraActivationBytes(batchSize, sequenceLength, hiddenSize, dtypeSize)
            && u.totalMemoryGB == u.loraParametersGB + u.gradientsGB + u.optimizerStatesGB + u.activationMemoryGB
            && u.totalMemoryGB == 4.0 * u.loraParametersGB + u.activationMemoryGB
  {
    var p := LoraParams(modelSize, numLayers, hiddenSize, loraRank) * dtypeSize;
    var a := LoraActivationBytes(batchSize, sequenceLength, hiddenSize, dtypeSize);
    var k := gradientAccumulationSteps as real;
    var e := a / k;
    assert e * k == a;
    assert (p + p + p * 2.0 + e) / Calc.GiB == p / Calc.GiB + p / Calc.GiB + p * 2.0 / Calc.GiB + e / Calc.GiB;
  }

  /** With both layer count and hidden size set, the adapters hold 4 * layers * hidden * rank parameters. */
  lemma LoraParamsRule(modelSize: real, numLayers: int, hiddenSize: int, loraRank: int)
    ensures numLayers != 0 && hiddenSize != 0 ==>
              LoraParams(modelSize, numLayers, hiddenSize, loraRank) == 4.0 * (numLayers * hiddenSize * loraRank) as real
    ensures numLayers == 0 || hiddenSize == 0 ==> LoraParams(modelSize, numLayers, hiddenSize, loraRank) == modelSize / 100.0
  {
    assert numLayers * 2 * (2 * hiddenSize * loraRank) == 4 * (numLayers * hiddenSize * loraRank);
  }

  /** With non-negative activations, more accumulation steps never raise the total. */
  lemma MoreAccumulationNeverCostsMore(modelSize: real, batchSize: int, sequenceLength: int, loraRank: int,
                                       dtypeSize: real, numLayers: int, hiddenSize: int, fewer: int, more: int)
    requires 0 < fewer <= more
    requires LoraActivationBytes(batchSize, sequenceLength, hiddenSize, dtypeSize) >= 0.0
    ensures LoraMemoryUsage(modelSize, batchSize, sequenceLength, loraRank, dtypeSize, numLayers, hiddenSize, more).value.totalMemoryGB <=
            LoraMemoryUsage(modelSize, batchSize, sequenceLength, loraRank, dtypeSize, numLayers, hiddenSize, fewer).value.totalMemoryGB
  {
    var a := LoraActivationBytes(batchSize, sequenceLength, hiddenSize, dtypeSize);
    var f, m := fewer as real, more as real;
    assert a / m <= a / f by {
      assert a / m * m == a;
      assert a / f * f == a;
      assert a / m * f <= a / m * m;
    }
  }
}
