# ComputeGauge memory estimator — a Dafny model

ComputeGauge estimates how much GPU memory a transformer model needs for
inference and for training, and recommends GPUs that can hold it. This
project models its computational core and proves properties of it:

- **Precision table and model loader** (`Config`, `LegacyConfig`): the
  bytes-per-element table, and the loop that turns a directory listing into a
  map of model configurations. The two copies of the package differ in how they
  name a configuration.
- **Memory formulas and formatter** (`Calc`): model weights, key/value cache,
  activations, optimizer state, gradients, the inference and training totals,
  and `FormatMemory`, which prints a byte count as `<n>.<dd> <unit>` in binary
  units B to PB.
- **Decimal text** (`Decimal`): the `%.2f` numerals the formatter prints and
  the `%f` reading that the parser does, with the round trip between them.
- **GPU recommender** (`Gpu`): it scores each of the 17 catalog cards against a
  requirement in GB, then sorts the recommendations in place by utilization
  score minus cost score, highest first, and keeps the first five.
- **Orchestrator** (`Memory`):
  - the request validator;
  - `parseMemoryString`, both as written and corrected (see Findings);
  - `CalculateMemoryRequirements`. It validates the request, formats the
    totals, parses them back into GB and keeps the three best cards for
    inference, and for training when an optimizer is named.
- **Python variant** (`PythonUtils`): `get_memory` drops addends that are not
  positive and marks the result. The Python formulas are related to the Go
  ones. `calculate_training_memory` takes a trainable percentage. There is a
  LoRA estimator.

Modelling choices:

- Byte counts are `real`: float64 arithmetic is taken as exact, with 10^9 exact.
- `%.2f` rounds |v|·100 to the nearest whole number of hundredths (an exact half
  goes to the even neighbour, as Go's `strconv` and Python's `format` do)
  and prints a '-' when v < 0.
- `fmt.Sscanf("%f %s")` reads an optional '-', digits, and optionally '.' and
  more digits. The number ends at the first space, and the unit is the word
  after it.
- Figure maps are keyed by the enumeration `Calc.Figure`. `Calc.Key` gives the
  string key of each one, and `Calc.KeysDistinct` proves the spellings are
  distinct.
- The loader's filesystem work is an input: `None` for a directory that cannot
  be found or read, otherwise the entries in listing order. Each entry carries
  the configuration its file decoded to, or `None` when reading or decoding
  failed.
- Python's tables `DATA_TYPE_SIZES` and `OPTIMIZERS` are parameters (`sizes`,
  `optimizers`), and so is the text Python's f-string gives for a raw byte total
  (`bytesText`).

## Model

| member | source | states |
|---|---|---|
| Config.DataTypeSizesTable | pkg/config/models.go:12-18 | exactly the five keys float32, float16, bfloat16, int8 and int4, mapped to 4, 2, 2, 1 and 0.5; every size is positive |
| Config.TrimSuffix | pkg/config/models.go:127 | when the name ends in the suffix, the result followed by the suffix is the name; otherwise the name is unchanged |
| Config.Named | pkg/config/models.go:127-131 | only the name field changes; under the pkg rule it becomes the key exactly when it was empty; under the legacy rule it is always the key |
| Config.CollectConfigs | pkg/config/models.go:112-134 | the loop leaves exactly `Loaded(entries, rule)`: the map built by visiting the entries in order and storing each regular ".json" file that decoded, under its name minus ".json" |
| Config.LoadModelConfigs | pkg/config/models.go:102-140 | an unavailable directory gives DirectoryUnavailable; an empty result gives NoValidConfigs; otherwise the loaded map |
| Config.LoadedKeys | pkg/config/models.go:112-131 | a key is loaded if and only if some non-directory ".json" entry that decoded has that key |
| Config.LoadedValue | pkg/config/models.go:127-131 | the configuration stored under a key comes from the last loadable entry with that key (later files overwrite earlier ones), named by the rule |
| Config.LoadedFromJsonFiles | pkg/config/models.go:113-127 | every loaded key is the name of a regular file with ".json" removed |
| Config.NameKeptUnlessEmpty | pkg/config/models.go:128-131 | a stored name is either the key, or the non-empty name given by the last loadable file with that key, the one later files did not overwrite |
| Config.LoadNeverEmpty | pkg/config/models.go:136-138 | the loaded map is empty if and only if no entry is loadable, which is when the loader reports an error |
| LegacyConfig.SameTableAsConfig | config/models.go:12-18 | the legacy table equals the pkg table entry for entry |
| LegacyConfig.LoadModelConfigs | config/models.go:79-117 | the same error cases as the pkg loader over the same loop; a success is non-empty and every stored name equals its key |
| LegacyConfig.NameIsKey | config/models.go:107-109 | under the legacy rule the stored name is the key, whatever the file said |
| Calc.Scale | pkg/calc/utils.go:10-16 | every unit is at least one byte (the sizes are the powers 1024^0 to 1024^5) |
| Calc.UnitFor | pkg/calc/utils.go:17-30 | the chosen unit's size is reached (except for B), and the count is below 1024 of that unit (except for PB) |
| Calc.ScaledValueRange | pkg/calc/utils.go:17-30 | the scaled value before rounding is in [1, 1024) for KB to TB, at least 1 for PB, below 1024 for B; zero and negative counts print in B |
| Calc.FormatsAs | pkg/calc/utils.go:17-30 | a positive count in unit u whose nearest whole number of hundredths is h (an exact half going to an even h) prints as the digits of h, a space and u's label |
| Calc.TieRoundsToEven | pkg/calc/utils.go:26-27 | 1152 bytes, the key/value cache of batch 1, 9 tokens and one layer of width 16 at float32, is exactly 1.125 KB and prints "1.12 KB" |
| Calc.GetModelWeights | pkg/calc/utils.go:32-38 | 0 for a precision not in the table; not negative for a non-negative model size |
| Calc.GetKVCache | pkg/calc/utils.go:39-49 | 0 for a precision not in the table |
| Calc.PrecisionScaling | pkg/calc/utils.go:32-49 | weights and key/value cache both double from int4 to int8 to float16 to float32; bfloat16 equals float16 |
| Calc.ActivationClosedForm | pkg/calc/utils.go:50-62 | activations are 4·batch·seq·(34·hidden + 5·seq·heads) bytes, whatever the precision and layer arguments |
| Calc.OptimizerAndGradientRatios | pkg/calc/utils.go:63-79 | Adam = AdamW = 4·QAdamW = 2·SGD; any other name gives 0; SGD state = gradients = float32 weights of the trainable count |
| Calc.KeysDistinct | pkg/calc/utils.go:85-90 | the string keys of the figures are pairwise distinct |
| Calc.CalculateInferenceMemory | pkg/calc/utils.go:80-91 | the map has exactly the four inference keys |
| Calc.CalculateTrainingMemory | pkg/calc/utils.go:93-111 | the map has exactly the seven training keys |
| Calc.TrainingMapExtendsInference | pkg/calc/utils.go:93-111 | the training map holds every inference entry unchanged and adds exactly optimizer, gradients and training |
| Calc.TrainingTotalDecomposes | pkg/calc/utils.go:94-101 | the training total is the sum of the five components; with a non-negative trainable count it is at least the inference total |
| Calc.SevenBillionAtFloat16 | pkg/calc/utils.go:32-38 | 7 billion parameters at float16 take 14,000,000,000 bytes, printed "13.04 GB" |
| Calc.KVCacheExample | pkg/calc/utils.go:39-49 | batch 1, 4096 tokens, 32 layers of width 4096 at float16 take 2^31 bytes, printed "2.00 GB" |
| Calc.AdamWExample | pkg/calc/utils.go:63-75 | AdamW over 7 billion trainable parameters keeps 56,000,000,000 bytes, printed "52.15 GB" |
| Calc.GradientsExample | pkg/calc/utils.go:76-79 | gradients of 7 billion trainable parameters take 28,000,000,000 bytes, printed "26.08 GB" |
| Decimal.DigitsRoundTrip | pkg/memory/calculator.go:74 | reading back the digits printed for n gives n |
| Decimal.Hundredths | pkg/calc/utils.go:19-29 | the printed number of hundredths is within one half of 100·|v|, and even when 100·|v| lies exactly halfway |
| Decimal.HundredthsTextReadsBack | pkg/memory/calculator.go:74 | "whole.dd" printed for h hundredths reads back as h/100 and holds no space and no '-' |
| Decimal.FixedTwoReadsBack | pkg/memory/calculator.go:74 | reading back what `%.2f` printed gives the signed rounded value, within 0.005 of v; the text holds no space |
| Gpu.CatalogUsable | pkg/gpu/recommendations.go:16-136 | the catalog has 17 entries, each with positive memory, bandwidth, price and performance |
| Gpu.Ceil | pkg/gpu/recommendations.go:150 | the result is the least integer not below x |
| Gpu.NumGPUs | pkg/gpu/recommendations.go:150-153 | at least one card |
| Gpu.NumGPUsIsCeiling | pkg/gpu/recommendations.go:150-153 | the count is the least number of cards, and at least one, whose combined memory holds the requirement; a requirement that fits on one card buys one |
| Gpu.UtilizationWithinCapacity | pkg/gpu/recommendations.go:150-155 | without training, a non-negative requirement scores between 0 and 100 |
| Gpu.TrainingAdjustsScores | pkg/gpu/recommendations.go:156-161 | training keeps card count and total cost (count·price); it multiplies utilization by bandwidth/2 and cost score by 0.8; inference cost score·performance = total cost |
| Gpu.HundredGBOnA100 | pkg/gpu/recommendations.go:150-155 | 100 GB on the 80 GB A100 needs 2 cards at 62.5 |
| Gpu.TrainingUtilizationCanExceed100 | pkg/gpu/recommendations.go:158-161 | with training, 80 GB on one H100-80GB scores 167.5 |
| Gpu.ScoreCard | pkg/gpu/recommendations.go:150-169 | the loop body builds the recommendation `Recommend` specifies for one card |
| Gpu.ScoreCatalog | pkg/gpu/recommendations.go:147-171 | the loop builds exactly `Built`: one `Recommend` of each catalog entry (the scoring `ScoreCard` is proved to perform), at that entry's position, in catalog order |
| Gpu.BestFrom | pkg/gpu/recommendations.go:172-176 | the index of a highest score among positions lo and up |
| Gpu.SortByScore | pkg/gpu/recommendations.go:172-176 | the array ends sorted by score, highest first, and holds the same elements (a permutation) |
| Gpu.SortedPrefixIsBest | pkg/gpu/recommendations.go:172-180 | a prefix of a sorted sequence is sorted, is drawn from it, and nothing left out outscores anything kept |
| Gpu.BestOfPrefix | pkg/memory/calculator.go:35-37 | cutting a sorted best selection down to n keeps the best of the whole |
| Gpu.GetGPURecommendations | pkg/gpu/recommendations.go:146-183 | five recommendations, sorted by score, drawn from the scored catalog, with no scored card left out that outscores one kept |
| Memory.ValidDtypesMatchTable | pkg/memory/calculator.go:114-120 | the validator accepts exactly the precision names of the size table |
| Memory.ValidateRequest | pkg/memory/calculator.go:94-125 | no error if and only if the model size and the five counts are positive and the precision is one of the five names |
| Memory.FirstFailureDecides | pkg/memory/calculator.go:95-123 | when check k is the first to fail, the error is check k's message |
| Memory.MessagesDistinct | pkg/memory/calculator.go:95-123 | the seven messages are pairwise distinct |
| Memory.ZeroModelSizeRejected | pkg/memory/calculator.go:95-97 | model size 0 gives "model size must be positive", whatever else is wrong |
| Memory.UnknownPrecisionRejected | pkg/memory/calculator.go:121-123 | an otherwise valid request with "fp99" gives "invalid precision type: fp99" |
| Memory.Scan | pkg/memory/calculator.go:74-77 | a failure carries the scan error; a success carries a non-empty unit with no space |
| Memory.NoSpaceFails | pkg/memory/calculator.go:74-77 | text without a space fails to parse, as written and corrected |
| Memory.MissingUnitFails | pkg/memory/calculator.go:74-77 | a number followed by a space and nothing else fails |
| Memory.Multiplier | pkg/memory/calculator.go:79-89 | the multiplier is at least 1 |
| Memory.MultiplierOfLabel | pkg/memory/calculator.go:79-91 | as written, the labels KB to TB get their size while "B" and "PB" get 1 (1 PB is not 1 byte); corrected, every printed label gets its size |
| Memory.UnknownUnitsGetOne | pkg/memory/calculator.go:79-89 | a word that is not a printed label gets the default multiplier 1 from both parsers |
| Memory.ScanFormatted | pkg/memory/calculator.go:74 | scanning what `FormatMemory` printed succeeds with the printed number and the unit's label |
| Memory.ParsedFormatted | pkg/memory/calculator.go:71-92 | parsing a formatted count gives the printed number (within 0.005 of the scaled count) times the unit's multiplier, for both parsers |
| Memory.RoundTripFixed | pkg/memory/calculator.go:71-92 | the corrected parser reads any formatted count back within half a hundredth of its unit, and within 0.5% of any count of at least one byte |
| Memory.RoundTripBelowPetabyte | pkg/memory/calculator.go:79-91 | below 1 PB the as-written parser agrees with the corrected one |
| Memory.RoundTripAtPetabyte | pkg/memory/calculator.go:79-91 | from 1 PB up, the as-written parser returns 1/1024^5 of the corrected value |
| Memory.PetabyteLabelLosesScale | pkg/memory/calculator.go:79-91 | any text scanned with unit "PB" reads at 1/1024^5 of the corrected value |
| Memory.PetabytePrints | pkg/calc/utils.go:18-19 | one PiB prints as "1.00 PB" |
| Memory.PetabyteCounterexample | pkg/memory/calculator.go:79-91 | the text printed for one PiB parses to 1 byte as written, and to one PiB corrected |
| Memory.RecommendForTotal | pkg/memory/calculator.go:29-37 | a parse failure is passed on; otherwise the first three recommendations for the total in GB, sorted and the best of the scored catalog |
| Memory.CalculateMemoryRequirements | pkg/memory/calculator.go:9-69 | an invalid request is rejected with the validator's message; a failed re-parse reports its stage; when both totals parse, the response holds the formatted figures, the three best cards for inference and, only when an optimizer is named, for training; it also holds total parameters = size·10^9 and the echoed sizes |
| Memory.RespondToValid | pkg/memory/calculator.go:14-68 | the same outcomes as `CalculateMemoryRequirements` for a request that passed validation |
| Memory.ValidRequestsParse | pkg/memory/calculator.go:29-32 | the corrected parser never fails on the formatter's output, so every valid request gets a response |
| PythonUtils.GetMemory | python/utils.py:6-29 | the loop's total and warning are the positive sum and "some addend dropped", and the result is their rendering |
| PythonUtils.PositiveSumFacts | python/utils.py:8-14 | the positive sum is never negative; it is 0 if and only if no addend is positive; it is the plain sum when nothing is dropped |
| PythonUtils.RenderEndsInLetter | python/utils.py:16-27 | a rendered total never ends in a space |
| PythonUtils.MarkerIffDropped | python/utils.py:28 | the result ends in the marker's space if and only if some addend was not positive |
| PythonUtils.BlankWithoutPositives | python/utils.py:16-17 | with no positive addend the result is "", plus " * " if there was any addend |
| PythonUtils.PyUnitAgainstGo | python/utils.py:18-27 | from 1 KB up to 1 PB Python picks Go's unit; from 1 PB up, Python stays in TB where Go uses PB |
| PythonUtils.AgreesWithGoFormatter | python/utils.py:20-27 | from 1 KB to 1 PB the Python rendering is exactly Go's `FormatMemory`; above that they differ only in the unit TB vs PB |
| PythonUtils.GetModelWeights | python/utils.py:33-38 | 0 for a missing precision; equal to Go's figure with Go's table |
| PythonUtils.GetKVCache | python/utils.py:42-56 | 0 for a missing precision; equal to Go's figure with Go's table |
| PythonUtils.GetActivationMemory | python/utils.py:60-74 | 0 when the hidden size is 0 (the caught division by zero) or float32 is missing |
| PythonUtils.ActivationAgreesWithGo | python/utils.py:60-74 | with Go's table and a non-zero hidden size, equal to Go's figure for any precision and layer count |
| PythonUtils.GetOptimizerMemory | python/utils.py:78-83 | 0 for an optimizer missing from the table; with Go's per-parameter bytes (AdamW and Adam 8, QAdamW 2, SGD 4) as the table, equal to Go's optimizer figure for every optimizer name |
| PythonUtils.GetGradientMemory | python/utils.py:87-93 | equals float32 weights whatever precision is passed, and Go's gradient figure with Go's table |
| PythonUtils.CalculateInferenceMemory | python/utils.py:97-119 | the map has exactly the four inference keys |
| PythonUtils.CalculateTrainingMemory | python/utils.py:123-162 | the map has exactly six keys: no inference total |
| PythonUtils.TrainingMapSharesComponents | python/utils.py:123-162 | the training map drops the inference total, adds optimizer, gradients and training, and shares the three component entries |
| PythonUtils.TrainablePercentage | python/utils.py:142-147 | a trainable percentage p gives Go's optimizer and gradient figures for p% of the model size |
| PythonUtils.LoraMemoryUsage | python/utils.py:165-195 | no result if and only if the accumulation steps are 0 (the uncaught division by zero) |
| PythonUtils.LoraBreakdown | python/utils.py:180-195 | gradients = parameters, optimizer = 2·parameters, activations divided by the steps, total = the sum of the four, all in GiB |
| PythonUtils.LoraParamsRule | python/utils.py:176-179 | 4·layers·hidden·rank adapter parameters when both are non-zero, otherwise 1% of the model size |
| PythonUtils.MoreAccumulationNeverCostsMore | python/utils.py:184-186 | with non-negative activations, more accumulation steps never raise the total |

## Left out

- HTTP routing, handlers, templates and the web front end: these are I/O and presentation.
- Locating the models directory, listing it, reading and JSON-decoding files, and logging: these are inputs to the loaders (see above).
- IEEE-754 behaviour: byte counts are exact reals. Go's integer-to-float conversions and `int` overflow are not modelled. `%.2f` rounds the exact real (half to even), where Go rounds the float64's binary value, so a decimal half that float64 cannot hold exactly (such as 1.005) can round differently.
- Calc.GetActivationMemory: requires a non-zero hidden size. Go would divide by zero and produce an infinity or NaN, which a real cannot represent. Every request that passes validation meets the requirement.
- Memory.Scan: reads only the grammar the formatter produces (optional '-', digits, optional '.' digits, one space, a word). `Sscanf("%f %s")` also skips leading spaces, accepts a run of spaces or a tab between number and unit, and accepts "1." and ".5", exponents, signs such as '+', hexadecimal floats, "Inf" and "NaN". Every scan failure is reported with one message instead of Go's particular `Sscanf` errors.
- Memory.CalculateMemoryRequirements: uses the corrected parser `ParseMemoryStringFixed`, so from 1 PB up it recommends for the true total. The as-written parser is kept beside it (see Findings).
- Memory.RecommendForTotal: re-parses with `ParseMemoryStringFixed` where pkg/memory/calculator.go:29 calls the as-written `parseMemoryString`. From 1 PB up the source sizes GPUs for 1/1024^5 of the total (`Memory.RoundTripAtPetabyte`). Below 1 PB the two agree (`Memory.RoundTripBelowPetabyte`).
- Memory.RespondToValid: makes the same substitution for both totals (pkg/memory/calculator.go:29 and 54), so its contract describes the corrected sizing from 1 PB up.
- Gpu.SortByScore: a selection sort stands for `sort.Slice`. The contract promises only what `sort.Slice` promises (sorted and a permutation), not the order among equal scores.
- Gpu.GetGPURecommendations: the recommendations are copied into an array for the in-place sort, and the result is a sequence, not an aliased slice.
- PythonUtils.Render: the f-string rendering of a raw total below 1024 bytes (`{total} Bytes`) is the parameter `bytesText`, because Python's float and int text forms are not modelled.
- PythonUtils: the `DATA_TYPE_SIZES` and `OPTIMIZERS` tables come from a Python `config` module that is not part of this model. They are parameters, and agreement with the Go tables is proved when the same tables are passed.
- PythonUtils.LoraMemoryUsage: the uncaught `ZeroDivisionError` for zero accumulation steps is the result `None`. Python's truthiness tests on `num_layers` and `hidden_size` are comparisons with 0.
- Streamlit's `@st.cache_data` memoisation: it does not change results.
- The figure maps are keyed by the enumeration `Calc.Figure` rather than by strings. They are built by formatting a map of byte counts figure by figure, which gives the same entries as the map literals.

## Findings

| source | as written | input that shows it | evidently intended | confidence | as-written member | corrected member |
|---|---|---|---|---|---|---|
| pkg/memory/calculator.go:79-91 | the multiplier switch has no "PB" case, so "PB" falls to the default multiplier 1, although `FormatMemory` prints "PB" from 1024^5 bytes up | 1125899906842624 bytes prints "1.00 PB", which parses back to 1 byte; the orchestrator then recommends GPUs for about 10^-9 GB | "PB" multiplies by 1024^5, like the other units `FormatMemory` prints | not executed | Memory.PetabyteCounterexample | Memory.RoundTripFixed |
