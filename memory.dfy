/**
 * The request validator, the memory-string parser and the orchestrator of
 * pkg/memory/calculator.go, over the request and response records of
 * pkg/memory/types.go.
 */
module Memory {
  import opened Wrappers
  import opened Decimal
  import Config
  import opened Calc
  import opened Gpu

  datatype MemoryRequest = MemoryRequest(
    modelSize: real,
    hiddenSize: int,
    numHiddenLayers: int,
    numAttentionHeads: int,
    sequenceLength: int,
    batchSize: int,
    torchDtype: string,
    optimizer: string)

  datatype MemoryResponse = MemoryResponse(
    modelWeights: string,
    kvCache: string,
    activationMemory: string,
    optimizerMemory: string,
    gradientsMemory: string,
    inferenceMemory: string,
    trainingMemory: string,
    inferenceGPUs: seq<GPURecommendation>,
    trainingGPUs: seq<GPURecommendation>,
    totalParams: real,
    hiddenSize: int,
    sequenceLength: int)

  // ---------------------------------------------------------------- validation

  /** The precision names the validator accepts. */
  const ValidDtypes: set<string> := {"float32", "float16", "bfloat16", "int8", "int4"}

  /** The validator accepts exactly the precisions the size table knows. */
  lemma ValidDtypesMatchTable()
    ensures ValidDtypes == Config.DataTypeSizes.Keys
  {
    Config.DataTypeSizesTable();
  }

  /** `validateRequest`: the message of the first failing check, or None when every check passes. */
  function ValidateRequest(req: MemoryRequest): (err: Option<string>)
    ensures err.None? <==>
            && req.modelSize > 0.0 && req.hiddenSize > 0 && req.numHiddenLayers > 0
            && req.numAttentionHeads > 0 && req.sequenceLength > 0 && req.batchSize > 0
            && req.torchDtype in Config.DataTypeSizes
  {
    ValidDtypesMatchTable();
    if req.modelSize <= 0.0 then Some("model size must be positive")
    else if req.hiddenSize <= 0 then Some("hidden size must be positive")
    else if req.numHiddenLayers <= 0 then Some("number of layers must be positive")
    else if req.numAttentionHeads <= 0 then Some("number of attention heads must be positive")
    else if req.sequenceLength <= 0 then Some("sequence length must be positive")
    else if req.batchSize <= 0 then Some("batch size must be positive")
    else if req.torchDtype !in ValidDtypes then Some("invalid precision type: " + req.torchDtype)
    else None
  }

  predicate IsValid(req: MemoryRequest) {
    ValidateRequest(req).None?
  }

  /** The seven checks, in the order the validator runs them; true means passed. */
  function Checks(req: MemoryRequest): (c: seq<bool>)
    ensures |c| == 7
  {
    [req.modelSize > 0.0, req.hiddenSize > 0, req.numHiddenLayers > 0, req.numAttentionHeads > 0,
     req.sequenceLength > 0, req.batchSize > 0, req.torchDtype in ValidDtypes]
  }

  /** The message that reports the failure of check k. */
  function CheckMessage(req: MemoryRequest, k: nat): string
    requires k < 7
  {
    [ "model size must be positive", "hidden size must be positive", "number of layers must be positive",
      "number of attention heads must be positive", "sequence length must be positive",
      "batch size must be positive", "invalid precision type: " + req.torchDtype ][k]
  }

  /**
   * The validator passes exactly when all seven checks pass, and otherwise
   * reports the message of the first check that fails.
   */
  lemma FirstFailureDecides(req: MemoryRequest, k: nat)
    requires k < 7 && !Checks(req)[k]
    requires forall j :: 0 <= j < k ==> Checks(req)[j]
    ensures ValidateRequest(req) == Some(CheckMessage(req, k))
  {
    var c := Checks(req);
    if k > 0 { assert c[0]; }
    if k > 1 { assert c[1]; }
    if k > 2 { assert c[2]; }
    if k > 3 { assert c[3]; }
    if k > 4 { assert c[4]; }
    if k > 5 { assert c[5]; }
  }

  /** No two checks report the same message, whatever the precision name. */
  lemma MessagesDistinct(req: MemoryRequest, j: nat, k: nat)
    requires j < k < 7
    ensures CheckMessage(req, j) != CheckMessage(req, k)
  {
    var last := "invalid precision type: " + req.torchDtype;
    assert last[0] == 'i';
    assert last[..24] == "invalid precision type: ";
  }

  /** A model size of zero is reported first, whatever else is wrong. */
  lemma ZeroModelSizeRejected(req: MemoryRequest)
    requires req.modelSize == 0.0
    ensures ValidateRequest(req) == Some("model size must be positive")
  {
    FirstFailureDecides(req, 0);
  }

  /** An otherwise valid request with precision "fp99" names the precision in its message. */
  lemma UnknownPrecisionRejected(req: MemoryRequest)
    requires req.modelSize > 0.0 && req.hiddenSize > 0 && req.numHiddenLayers > 0
    requires req.numAttentionHeads > 0 && req.sequenceLength > 0 && req.batchSize > 0
    requires req.torchDtype == "fp99"
    ensures ValidateRequest(req) == Some("invalid precision type: fp99")
  {
    FirstFailureDecides(req, 6);
    assert "invalid precision type: " + "fp99" == "invalid precision type: fp99";
  }

  // ---------------------------------------------------------------- parsing

  /** What the parser reports when the text does not scan as a number, a space and a word. */
  const ScanError: string := "input does not match \"%f %s\""

  /**
   * `fmt.Sscanf(memStr, "%f %s", ...)`: the number up to the first space, then
   * the word that follows it up to the next space.
   */
  function Scan(memStr: string): (r: Result<(real, string), string>)
    ensures r.Failure? ==> r.error == ScanError
    ensures r.Success? ==> |r.value.1| > 0 && forall j :: 0 <= j < |r.value.1| ==> r.value.1[j] != ' '
  {
    var sp := FirstIndex(memStr, ' ');
    if sp == |memStr| then Failure(ScanError)
    else
      match ParseNumber(memStr[..sp])
      case None => Failure(ScanError)
      case Some(value) =>
        var rest := memStr[sp + 1..];
        var unit := rest[..FirstIndex(rest, ' ')];
        if unit == "" then Failure(ScanError) else Success((value, unit))
  }

  /** The multiplier of `parseMemoryString` as written: "PB" falls to the default of 1. */
  function Multiplier(unit: string): (m: real)
    ensures m >= 1.0
  {
    if unit == "TB" then 1099511627776.0
    else if unit == "GB" then 1073741824.0
    else if unit == "MB" then 1048576.0
    else if unit == "KB" then 1024.0
    else 1.0
  }

  /** The multiplier as intended: every unit `FormatMemory` prints, "PB" included, gets its size. */
  function MultiplierFixed(unit: string): (m: real)
    ensures m >= 1.0
  {
    if unit == "PB" then 1125899906842624.0 else Multiplier(unit)
  }

  /** The multiplication step of `parseMemoryString` as written; a scan failure passes through. */
  function Scaled(scanned: Result<(real, string), string>): Result<real, string> {
    if scanned.Failure? then Failure(scanned.error)
    else Success(scanned.value.0 * Multiplier(scanned.value.1))
  }

  /** The multiplication step with the corrected multiplier. */
  function ScaledFixed(scanned: Result<(real, string), string>): Result<real, string> {
    if scanned.Failure? then Failure(scanned.error)
    else Success(scanned.value.0 * MultiplierFixed(scanned.value.1))
  }

  /** `parseMemoryString` as written. */
  function ParseMemoryString(memStr: string): Result<real, string> {
    Scaled(Scan(memStr))
  }

  /** `parseMemoryString` with the "PB" case added; this is the parser the orchestrator uses. */
  function ParseMemoryStringFixed(memStr: string): Result<real, string> {
    ScaledFixed(Scan(memStr))
  }

  /**
   * The multiplier of each printed label: as written, KB to TB get their size
   * and "PB" falls to 1; corrected, every printed unit gets its size.
   */
  lemma MultiplierOfLabel(u: Unit)
    ensures MultiplierFixed(Label(u)) == Scale(u)
    ensures u != PB ==> Multiplier(Label(u)) == Scale(u)
    ensures u == PB ==> Multiplier(Label(u)) == 1.0 && Scale(PB) != 1.0
  {
  }

  /** A word that is no printed label gets the default multiplier of 1 from both parsers. */
  lemma UnknownUnitsGetOne(other: string)
    requires other !in {"B", "KB", "MB", "GB", "TB", "PB"}
    ensures Multiplier(other) == 1.0 && MultiplierFixed(other) == 1.0
  {
  }

  /** A text without a space never scans, so both parsers fail on it. */
  lemma NoSpaceFails(memStr: string)
    requires forall j :: 0 <= j < |memStr| ==> memStr[j] != ' '
    ensures ParseMemoryString(memStr).Failure? && ParseMemoryStringFixed(memStr).Failure?
  {
  }

  /** A number with no unit after its space does not scan either. */
  lemma MissingUnitFails(number: string)
    requires forall j :: 0 <= j < |number| ==> number[j] != ' '
    ensures ParseMemoryString(number + " ").Failure?
  {
    FirstIndexAfter(number, ' ', "");
    assert (number + [' '] + "")[|number| + 1..] == "";
  }

  lemma LabelHasNoSpace(u: Unit)
    ensures |Label(u)| > 0 && forall j :: 0 <= j < |Label(u)| ==> Label(u)[j] != ' '
  {
  }

  /** A number without spaces, one space and a word without spaces scan as that number and word. */
  lemma ScanPrinted(number: string, word: string, v: real)
    requires forall j :: 0 <= j < |number| ==> number[j] != ' '
    requires |word| > 0 && forall j :: 0 <= j < |word| ==> word[j] != ' '
    requires ParseNumber(number) == Some(v)
    ensures Scan(number + " " + word) == Success((v, word))
  {
    var text := number + " " + word;
    FirstIndexAfter(number, ' ', word);
    assert text[..|number|] == number;
    var rest := text[|number| + 1..];
    assert rest == word;
    assert FirstIndex(rest, ' ') == |rest|;
    assert rest[..|rest|] == word;
  }

  /** Scanning what `FormatMemory` printed gives back the printed number and the unit's label. */
  lemma ScanFormatted(bytes: real)
    ensures Scan(FormatMemory(bytes)).Success?
    ensures Scan(FormatMemory(bytes)).value.1 == Label(UnitFor(bytes))
    ensures Some(Scan(FormatMemory(bytes)).value.0) == ParseNumber(FixedTwo(bytes / Scale(UnitFor(bytes))))
  {
    var u := UnitFor(bytes);
    var number := FixedTwo(bytes / Scale(u));
    FixedTwoReadsBack(bytes / Scale(u));
    LabelHasNoSpace(u);
    var text := FormatMemory(bytes);
    assert text == number + [' '] + Label(u);
    FirstIndexAfter(number, ' ', Label(u));
    assert text[..|number|] == number;
    var rest := text[|number| + 1..];
    assert rest == Label(u);
    assert FirstIndex(rest, ' ') == |rest|;
    assert rest[..|rest|] == Label(u);
  }

  /** A number and a unit's label scale to the number times that unit's multiplier. */
  lemma ScaledLabel(v: real, u: Unit)
    ensures ScaledFixed(Success((v, Label(u)))) == Success(v * Scale(u))
    ensures Scaled(Success((v, Label(u)))) == Success(v * Multiplier(Label(u)))
    ensures u != PB ==> Scaled(Success((v, Label(u)))) == ScaledFixed(Success((v, Label(u))))
    ensures u == PB ==> Scaled(Success((v, Label(u)))) == Success(v)
  {
    MultiplierOfLabel(u);
    var scanned := Success((v, Label(u)));
    assert scanned.value.0 == v && scanned.value.1 == Label(u);
    assert Scaled(scanned) == Success(v * Multiplier(Label(u)));
    if u == PB {
      assert v * Multiplier(Label(u)) == v;
    }
  }

  /**
   * The parsed value of a formatted count: the printed number v, read back
   * within half a hundredth of the scaled count, times the multiplier of the unit.
   */
  lemma ParsedFormatted(bytes: real) returns (v: real, u: Unit)
    ensures u == UnitFor(bytes)
    ensures ParseNumber(FixedTwo(bytes / Scale(u))) == Some(v)
    ensures Scan(FormatMemory(bytes)) == Success((v, Label(u)))
    ensures ParseMemoryStringFixed(FormatMemory(bytes)) == Success(v * Scale(u))
    ensures ParseMemoryString(FormatMemory(bytes)) == Success(v * Multiplier(Label(u)))
    ensures -0.005 <= v - bytes / Scale(u) <= 0.005
  {
    u := UnitFor(bytes);
    ScanFormatted(bytes);
    FixedTwoReadsBack(bytes / Scale(u));
    v := ParseNumber(FixedTwo(bytes / Scale(u))).value;
    var text := FormatMemory(bytes);
    assert Scan(text) == Success((v, Label(u)));
    ScaledLabel(v, u);
  }

  /**
   * Round trip through the corrected parser: parsing what `FormatMemory`
   * printed always succeeds and lands within half a hundredth of the chosen
   * unit of the original count; for counts of at least one byte that is
   * within half a percent of the count.
   */
  lemma RoundTripFixed(bytes: real)
    ensures ParseMemoryStringFixed(FormatMemory(bytes)).Success?
    ensures var back := ParseMemoryStringFixed(FormatMemory(bytes)).value;
            && -0.005 * Scale(UnitFor(bytes)) <= back - bytes <= 0.005 * Scale(UnitFor(bytes))
            && (bytes >= 1.0 ==> -0.005 * bytes <= back - bytes <= 0.005 * bytes)
  {
    var v, u := ParsedFormatted(bytes);
    UnscaleBound(v, bytes, u);
  }

  /** Multiplying the scaled bound back by the unit's size (one literal per unit). */
  lemma UnscaleBound(v: real, bytes: real, u: Unit)
    requires u == UnitFor(bytes)
    requires -0.005 <= v - bytes / Scale(u) <= 0.005
    ensures -0.005 * Scale(u) <= v * Scale(u) - bytes <= 0.005 * Scale(u)
    ensures bytes >= 1.0 ==> -0.005 * bytes <= v * Scale(u) - bytes <= 0.005 * bytes
  {
    var m := Scale(u);
    assert bytes / m * m == bytes;
    assert (v - bytes / m) * m == v * m - bytes;
    assert -0.005 * m <= (v - bytes / m) * m <= 0.005 * m;
  }

  /** Below one PB the as-written parser agrees with the corrected one, so the round trip holds there too. */
  lemma RoundTripBelowPetabyte(bytes: real)
    requires UnitFor(bytes) != PB
    ensures ParseMemoryString(FormatMemory(bytes)) == ParseMemoryStringFixed(FormatMemory(bytes))
  {
    var v, u := ParsedFormatted(bytes);
    ScaledLabel(v, u);
  }

  /** From one PB upward the as-written parser loses the unit: the value comes back 1024^5 times too small. */
  lemma RoundTripAtPetabyte(bytes: real)
    requires UnitFor(bytes) == PB
    ensures ParseMemoryString(FormatMemory(bytes)).Success?
    ensures ParseMemoryString(FormatMemory(bytes)).value * Scale(PB) ==
            ParseMemoryStringFixed(FormatMemory(bytes)).value
  {
    ScanFormatted(bytes);
    PetabyteLabelLosesScale(FormatMemory(bytes));
  }

  /** Any text scanned with the unit "PB" is read by the as-written parser at 1/1024^5 of the corrected value. */
  lemma PetabyteLabelLosesScale(text: string)
    requires Scan(text).Success? && Scan(text).value.1 == Label(PB)
    ensures ParseMemoryString(text).Success?
    ensures ParseMemoryString(text).value * Scale(PB) == ParseMemoryStringFixed(text).value
  {
    var v := Scan(text).value.0;
    assert Scan(text) == Success((v, Label(PB)));
    ScaledLabel(v, PB);
  }

  /** One PiB prints as "1.00 PB". */
  lemma PetabytePrints()
    ensures FormatMemory(1125899906842624.0) == "1.00 PB"
  {
    FormatsAs(1125899906842624.0, PB, 1125899906842624.0, 100, "1.00");
  }

  /** The as-written parser reads the text printed for one PiB back as one byte; the corrected one gives one PiB. */
  lemma PetabyteCounterexample(pib: real)
    requires pib == 1125899906842624.0
    ensures ParseMemoryString(FormatMemory(pib)) == Success(1.0)
    ensures ParseMemoryStringFixed(FormatMemory(pib)) == Success(pib)
  {
    PetabyteScans(pib);
    OnePetabyteText(FormatMemory(pib));
  }

  /** Any text that scans as 1 and "PB" parses to 1 as written and to one PiB when corrected. */
  lemma OnePetabyteText(text: string)
    requires Scan(text) == Success((1.0, Label(PB)))
    ensures ParseMemoryString(text) == Success(1.0)
    ensures ParseMemoryStringFixed(text) == Success(1125899906842624.0)
  {
    ScaledLabel(1.0, PB);
  }

  /** The text printed for one PiB scans as the number 1 and the word "PB". */
  lemma PetabyteScans(pib: real)
    requires pib == 1125899906842624.0
    ensures Scan(FormatMemory(pib)) == Success((1.0, Label(PB)))
  {
    var number := HundredthsText(100);
    FormatsAs(pib, PB, pib, 100, number);
    HundredthsTextReadsBack(100);
    ScanPrinted(number, Label(PB), 1.0);
  }

  // ---------------------------------------------------------------- orchestration

  const TopGPUs: nat := 3

  function InferenceFigures(req: MemoryRequest): map<Figure, string>
    requires IsValid(req)
  {
    CalculateInferenceMemory(req.modelSize, req.torchDtype, req.batchSize, req.sequenceLength, req.hiddenSize,
                             req.numHiddenLayers, req.numAttentionHeads)
  }

  /** The training figures; the trainable-parameter count passed is the model size itself. */
  function TrainingFigures(req: MemoryRequest): map<Figure, string>
    requires IsValid(req)
  {
    CalculateTrainingMemory(req.modelSize, req.torchDtype, req.batchSize, req.sequenceLength, req.hiddenSize,
                            req.numHiddenLayers, req.numAttentionHeads, req.optimizer, req.modelSize)
  }

  /** The three best recommendations for a requirement of gb gigabytes, in score order. */
  ghost predicate TopThree(recs: seq<GPURecommendation>, gb: real, isTraining: bool) {
    && |recs| == TopGPUs
    && SortedByScore(recs)
    && AllUsable(GPUDatabase)
    && BestOf(Built(GPUDatabase, gb, isTraining), recs)
  }

  /** Both totals the orchestrator re-parses are read back. */
  predicate TotalsParse(req: MemoryRequest)
    requires IsValid(req)
  {
    && ParseMemoryStringFixed(InferenceFigures(req)[InferenceMemory]).Success?
    && (req.optimizer != "" ==> ParseMemoryStringFixed(TrainingFigures(req)[TrainingMemory]).Success?)
  }

  /** What a successful response holds for a valid request. */
  ghost predicate Describes(req: MemoryRequest, resp: MemoryResponse) {
    && IsValid(req)
    && TotalsParse(req)
    && var inference := InferenceFigures(req);
    && resp.modelWeights == inference[ModelWeights]
    && resp.kvCache == inference[KVCache]
    && resp.activationMemory == inference[ActivationMemory]
    && resp.inferenceMemory == inference[InferenceMemory]
    && TopThree(resp.inferenceGPUs, ParseMemoryStringFixed(inference[InferenceMemory]).value / GiB, false)
    && (req.optimizer == "" ==>
          resp.optimizerMemory == "" && resp.gradientsMemory == "" && resp.trainingMemory == "" &&
          resp.trainingGPUs == [])
    && (req.optimizer != "" ==>
          var training := TrainingFigures(req);
          && resp.optimizerMemory == training[OptimizerMemory]
          && resp.gradientsMemory == training[GradientsMemory]
          && resp.trainingMemory == training[TrainingMemory]
          && TopThree(resp.trainingGPUs, ParseMemoryStringFixed(training[TrainingMemory]).value / GiB, true))
    && resp.totalParams == req.modelSize * Billion
    && resp.hiddenSize == req.hiddenSize
    && resp.sequenceLength == req.sequenceLength
  }

  /**
   * The step `CalculateMemoryRequirements` runs on each total: re-parse the
   * formatted total, convert bytes to GB, ask for recommendations and keep
   * the first three. A parse failure is passed on.
   */
  method RecommendForTotal(total: string, isTraining: bool) returns (res: Result<seq<GPURecommendation>, string>)
    ensures ParseMemoryStringFixed(total).Failure? ==> res == Failure(ParseMemoryStringFixed(total).error)
    ensures ParseMemoryStringFixed(total).Success? ==>
              res.Success? && TopThree(res.value, ParseMemoryStringFixed(total).value / GiB, isTraining)
  {
    var memoryBytes := ParseMemoryStringFixed(total);
    if memoryBytes.Failure? {
      return Failure(memoryBytes.error);
    }
    var memoryGB := memoryBytes.value / GiB;
    var recommendations := GetGPURecommendations(memoryGB, isTraining);
    BestOfPrefix(Built(GPUDatabase, memoryGB, isTraining), recommendations, TopGPUs);
    if |recommendations| > TopGPUs {
      recommendations := recommendations[..TopGPUs];
    }
    return Success(recommendations);
  }

  /**
   * `CalculateMemoryRequirements`: an invalid request is rejected with the
   * validator's message before any formula runs; a failed re-parse of a total
   * is reported with its stage; otherwise the response carries the formatted
   * figures, the three best cards for inference and, when an optimizer is
   * named, for training.
   */
  method CalculateMemoryRequirements(r: MemoryRequest) returns (res: Result<MemoryResponse, string>)
    ensures ValidateRequest(r).Some? ==> res == Failure(ValidateRequest(r).value)
    ensures IsValid(r) && ParseMemoryStringFixed(InferenceFigures(r)[InferenceMemory]).Failure? ==>
              res == Failure("error parsing inference memory: " + ScanError)
    ensures IsValid(r) && ParseMemoryStringFixed(InferenceFigures(r)[InferenceMemory]).Success? &&
            r.optimizer != "" && ParseMemoryStringFixed(TrainingFigures(r)[TrainingMemory]).Failure? ==>
              res == Failure("error parsing training memory: " + ScanError)
    ensures IsValid(r) && TotalsParse(r) ==> res.Success?
    ensures res.Success? ==> Describes(r, res.value)
  {
    var err := ValidateRequest(r);
    if err.Some? {
      return Failure(err.value);
    }
    res := RespondToValid(r);
  }

  /** Everything `CalculateMemoryRequirements` does once the request has passed validation. */
  method RespondToValid(r: MemoryRequest) returns (res: Result<MemoryResponse, string>)
    requires IsValid(r)
    ensures ParseMemoryStringFixed(InferenceFigures(r)[InferenceMemory]).Failure? ==>
              res == Failure("error parsing inference memory: " + ScanError)
    ensures ParseMemoryStringFixed(InferenceFigures(r)[InferenceMemory]).Success? &&
            r.optimizer != "" && ParseMemoryStringFixed(TrainingFigures(r)[TrainingMemory]).Failure? ==>
              res == Failure("error parsing training memory: " + ScanError)
    ensures TotalsParse(r) ==> res.Success?
    ensures res.Success? ==> Describes(r, res.value)
  {
    var inferenceResults := InferenceFigures(r);
    var inferenceMemory := inferenceResults[InferenceMemory];
    var inferenceGPUs := RecommendForTotal(inferenceMemory, false);
    if inferenceGPUs.Failure? {
      return Failure("error parsing inference memory: " + inferenceGPUs.error);
    }

    var optimizerMemory, gradientsMemory, trainingMemory := "", "", "";
    var trainingGPUs: seq<GPURecommendation> := [];
    if r.optimizer != "" {
      var trainingResults := TrainingFigures(r);
      optimizerMemory := trainingResults[OptimizerMemory];
      gradientsMemory := trainingResults[GradientsMemory];
      trainingMemory := trainingResults[TrainingMemory];
      var recommended := RecommendForTotal(trainingMemory, true);
      if recommended.Failure? {
        return Failure("error parsing training memory: " + recommended.error);
      }
      trainingGPUs := recommended.value;
    }

    var resp := MemoryResponse(
      inferenceResults[ModelWeights], inferenceResults[KVCache], inferenceResults[ActivationMemory],
      optimizerMemory, gradientsMemory, inferenceMemory, trainingMemory,
      inferenceGPUs.value, trainingGPUs,
      r.modelSize * Billion, r.hiddenSize, r.sequenceLength);
    return Success(resp);
  }

  /** The re-parse never fails on the formatter's own output, so a valid request always gets a response. */
  lemma ValidRequestsParse(req: MemoryRequest)
    requires IsValid(req)
    ensures TotalsParse(req)
  {
    RoundTripFixed(InferenceBytes(req.modelSize, req.torchDtype, req.batchSize, req.sequenceLength, req.hiddenSize,
                                  req.numHiddenLayers, req.numAttentionHeads));
    RoundTripFixed(TrainingBytes(req.modelSize, req.torchDtype, req.batchSize, req.sequenceLength, req.hiddenSize,
                                 req.numHiddenLayers, req.numAttentionHeads, req.optimizer, req.modelSize));
  }
}
