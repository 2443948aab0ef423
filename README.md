# PaddleClas: EfficientNet configuration, RandAugment, preprocessing and the training epoch

This project models four parts of PaddleClas, the PaddlePaddle image-classification suite, in Dafny and proves properties of them.

- **EfficientNet configuration arithmetic** (`ppcls/arch/backbone/model_zoo/efficientnet.py`):
  - the block-notation codec (`BlockDecoder`);
  - the coefficient table and `get_model_params`;
  - `round_filters`, `round_repeats` and `cal_padding`;
  - the padding choice of `Conv2ds` together with `inp_shape`;
  - the SE, expansion, residual and drop-connect conditions of `MbConvBlock`;
  - the block-expansion loop of `ExtractFeatures.__init__`.
- **RandAugment** (`ppcls/data/preprocess/ops/randaugment.py`):
  - the `solarize_add` lookup table;
  - the `cutout` geometry and mask;
  - the `level_map` and `func` tables of `RandAugment` and `RandAugmentV2`;
  - the sequencing of `__call__`;
  - the probability gate of `RandomApply`.
- **Preprocessing** (`ppcls/data/preprocess/__init__.py`):
  - the `transform` fold;
  - the PIL/array conversions in the wrapper classes;
  - the probability gate of `TimmAutoAugment`.
- **The training epoch** (`ppcls/engine/train/train.py`):
  - `train_epoch`, modelled as a class `Train.Engine`. Its fields are the global step counter, the data-loader iterator and an event log. Its method `TrainEpoch` changes them in place.
  - `forward`.

## How the model is built

- **Modules.**
  - `Common` holds Python's exceptions as a `Result` type, plus Python's `//`, `%`, `int()` and `math.ceil`.
  - `BlockCodec` and `EfficientNet` cover `efficientnet.py`, and `Features` covers its `ExtractFeatures` loop.
  - `RandAugment`, `Preprocess` and `Train` cover the other three files.
- **Errors.** Each Python exception the code can raise is a `PyError` value: `KeyError`, `IndexError`, `ValueError`, `AssertionError`, `AttributeError`, `TypeError`, `ZeroDivisionError`, `NotImplementedError`, `StopIteration` and `UnboundLocalError`. The error paths are modelled, not excluded by preconditions.
- **Imperative parts.** Loops in the source are methods with loop invariants, and each one is proved equal to a pure specification function:
  - `FillOptions` and `DecodeBlockString`, for the options loop of `_decode_block_string`;
  - `Decode` and `Encode`;
  - `CountBlocks`, `BuildBlocks` and `AppendStage`, for the loops of `ExtractFeatures`;
  - `SolarizeLut`, `Call` and `Transform`;
  - `Engine.TrainEpoch`.

  The lemmas prove what the source promises about those specification functions.
- **The training epoch.** The engine's calls into the framework are recorded as `Event`s in a log:
  - creating and resetting the iterator;
  - fetching a batch and reshaping the labels;
  - the forward and backward passes;
  - optimiser steps, `clear_grad`, scheduler steps and EMA updates;
  - `update_metric`, `update_loss`, `log_info` and the `time_info` reset.

  The lemmas count events in the log of one epoch.
- **Opaque inputs.**
  - Images, PIL operations and numpy conversions are type and function parameters.
  - Random draws are parameters: `np.random.choice` in `RandAugment.__call__`, `np.random.rand` in `RandomApply.__call__`, `random.random` in `TimmAutoAugment.__call__` and `np.random.randint` in `cutout`. The `random.choice` sign draws (`rnd_ch_op`) happen inside the `func` operations, which are opaque parameters.
- **Numbers.**
  - Python floats are exact `real`s.
  - The `se` ratio of a block string is an exact decimal, written as a mantissa and a scale.

## Model

| member | source | states |
|---|---|---|
| `Common.FloorDiv` | ppcls/arch/backbone/model_zoo/efficientnet.py:146 | Python `//`: the floor of the exact quotient, bracketed from both sides for either sign of the divisor |
| `Common.PyMod` | ppcls/engine/train/train.py:80 | Python `%`: the remainder has the divisor's sign and divisor·(a // divisor) + remainder = a, as in the `(iter_id + 1) % update_freq` test |
| `Common.Trunc` | ppcls/data/preprocess/ops/randaugment.py:87 | Python `int()` on a float truncates toward zero: it brackets x from below for x ≥ 0 and from above for x < 0 |
| `Common.Ceil` | ppcls/arch/backbone/model_zoo/efficientnet.py:157 | `math.ceil`: the least integer not below x |
| `Common.FloorDivUnique` | ppcls/arch/backbone/model_zoo/efficientnet.py:264 | an integer bracketing a between q·b and q·b + b is a // b |
| `Common.NatToString` | ppcls/arch/backbone/model_zoo/efficientnet.py:196-201 | `'%d' % n` yields a non-empty string of decimal digits |
| `Common.NatToStringValue` | ppcls/arch/backbone/model_zoo/efficientnet.py:196-201 | reading back the printed numeral of n gives n, which is the `int()` of that `'%d'` text |
| `Common.DigitsValueAppend` | ppcls/arch/backbone/model_zoo/efficientnet.py:185-189 | the value of a concatenated digit string is value(s)·10^|t| + value(t) |
| `Common.LeadingZeros` | ppcls/arch/backbone/model_zoo/efficientnet.py:191 | leading zeros do not change the value `float()` reads from a numeral |
| `Common.ApplyInOrderAppend` | ppcls/data/preprocess/__init__.py:63-64 | applying the operator list a + b is applying a, then b to the result |
| `Common.MapResultShape` | ppcls/arch/backbone/model_zoo/efficientnet.py:217-221 | a loop that stops at the first exception succeeds exactly when every element succeeds, and then returns the per-element results in input order and at input length |
| `Common.MapResultPrefixFailure` | ppcls/arch/backbone/model_zoo/efficientnet.py:217-221 | once an element raises, the whole loop raises that exception |
| `Common.MapLoop` | ppcls/arch/backbone/model_zoo/efficientnet.py:217-221 | the appending loop returns exactly the first-exception-stops specification |
| `BlockCodec.FirstIndex` | ppcls/arch/backbone/model_zoo/efficientnet.py:170 | the index of the first occurrence of a character: it holds c, and no earlier position does |
| `BlockCodec.FirstIndexIs` | ppcls/arch/backbone/model_zoo/efficientnet.py:170 | any position holding c with no c before it is the one `FirstIndex` returns |
| `BlockCodec.Split` | ppcls/arch/backbone/model_zoo/efficientnet.py:170 | `str.split('_')` returns at least one part, no part contains `_`, and joining the parts with `_` gives back the string |
| `BlockCodec.SplitJoin` | ppcls/arch/backbone/model_zoo/efficientnet.py:206 | splitting `'_'.join(parts)` on `_` returns the parts, when no part contains `_` |
| `BlockCodec.JoinAppend` | ppcls/arch/backbone/model_zoo/efficientnet.py:206 | joining parts + [last] is the joined parts, then `_`, then last |
| `BlockCodec.JoinAvoids` | ppcls/arch/backbone/model_zoo/efficientnet.py:206 | a character found in no part, and other than the separator, is absent from the joined string |
| `BlockCodec.FirstDigit` | ppcls/arch/backbone/model_zoo/efficientnet.py:173 | `re.split(r'(\d.*)', op)`: the position of the first digit of a token, or none exactly when the token has no digit |
| `BlockCodec.Line` | ppcls/arch/backbone/model_zoo/efficientnet.py:173 | `.*` stops at a newline: the value is a newline-free prefix of the rest, and all of it when there is no newline |
| `BlockCodec.SplitToken` | ppcls/arch/backbone/model_zoo/efficientnet.py:173-176 | a token that adds an option has a value beginning with a digit |
| `BlockCodec.Options` | ppcls/arch/backbone/model_zoo/efficientnet.py:171-176 | every value in the options dictionary starts with a digit |
| `BlockCodec.OptionsAppend` | ppcls/arch/backbone/model_zoo/efficientnet.py:172-176 | one more token leaves the options unchanged when it has no digit, and otherwise sets its key to its value, overwriting an earlier one |
| `BlockCodec.OptionsLastWins` | ppcls/arch/backbone/model_zoo/efficientnet.py:172-176 | a key is in the options dictionary iff some token has that key, and its value is the value of the last such token |
| `BlockCodec.ContainsNeedsFirst` | ppcls/arch/backbone/model_zoo/efficientnet.py:190 | a substring test fails when the first letter of the word does not occur at all |
| `BlockCodec.ContainsSuffix` | ppcls/arch/backbone/model_zoo/efficientnet.py:190 | a string ending in w contains w |
| `BlockCodec.BuildRecord` | ppcls/arch/backbone/model_zoo/efficientnet.py:184-192 | a successful record has stride `[int(s[0])]`, `id_skip` false exactly when `noskip` is a substring of the block string, and `se_ratio` None exactly when there is no `se` option |
| `BlockCodec.FillOptions` | ppcls/arch/backbone/model_zoo/efficientnet.py:171-176 | the dictionary-filling loop computes the options dictionary of the token list |
| `BlockCodec.DecodeBlock` | ppcls/arch/backbone/model_zoo/efficientnet.py:165-192 | definition of `_decode_block_string`; properties in `DecodeStride`, `DecodeFlags`, `RoundTrip`, and `DecodeBlockString` proves the loop equal to it |
| `BlockCodec.DecodeBlockString` | ppcls/arch/backbone/model_zoo/efficientnet.py:165-192 | the imperative decoder returns exactly the decoding specification |
| `BlockCodec.DecodeStride` | ppcls/arch/backbone/model_zoo/efficientnet.py:178-182 | a missing `s` option raises KeyError, and a malformed one (neither one digit nor two equal characters) raises AssertionError; a success has stride `[d]` with d the first character's digit, 0..9 |
| `BlockCodec.DecodeFlags` | ppcls/arch/backbone/model_zoo/efficientnet.py:190-191 | a decoded record has `id_skip` iff `noskip` is not a substring, and has no `se_ratio` iff no token has key `se` |
| `BlockCodec.SplitTokenOf` | ppcls/arch/backbone/model_zoo/efficientnet.py:173-176 | a digit-free key followed by a value that starts with a digit splits back into that key and that value |
| `BlockCodec.FirstDigitAfter` | ppcls/arch/backbone/model_zoo/efficientnet.py:173 | the first digit of key + value is at the position where the value starts |
| `BlockCodec.StripStart` | ppcls/arch/backbone/model_zoo/efficientnet.py:185-191 | the leading-white-space half of `str.strip` inside `int()`/`float()`: the result is a suffix of the input that does not start with white space; properties in `StripPadding` |
| `BlockCodec.StripEnd` | ppcls/arch/backbone/model_zoo/efficientnet.py:185-191 | the trailing-white-space half of `str.strip`: the result is a prefix of the input that does not end with white space; properties in `StripPadding` |
| `BlockCodec.ParseInt` | ppcls/arch/backbone/model_zoo/efficientnet.py:185-189 | definition of `int()` on an option value; properties in `ParseIntOf`, `ParseIntPadded` and `IntFieldOf` |
| `BlockCodec.ParseIntOf` | ppcls/arch/backbone/model_zoo/efficientnet.py:185-189 | `int()` of a printed natural number returns that number |
| `BlockCodec.Canonical` | ppcls/arch/backbone/model_zoo/efficientnet.py:203 | the canonical form of an `se` ratio has at least one fractional digit and the same real value |
| `BlockCodec.FracText` | ppcls/arch/backbone/model_zoo/efficientnet.py:203 | the fractional digits of a printed ratio number exactly `scale` and denote mantissa mod 10^scale |
| `BlockCodec.WholeText` | ppcls/arch/backbone/model_zoo/efficientnet.py:203 | the integer digits of a printed ratio are non-empty and denote mantissa div 10^scale |
| `BlockCodec.ExponentAt` | ppcls/arch/backbone/model_zoo/efficientnet.py:191 | the exponent scan of `float()`: the position of the first `e`/`E`, or the length when there is none, with no mark before it; used by `ParseDecimalExponent` |
| `BlockCodec.ParseDecimal` | ppcls/arch/backbone/model_zoo/efficientnet.py:191 | definition of `float()` on an option value; properties in `ParseDecimalPoint`, `ParseDecimalTrailingPoint`, `ParseDecimalExponent`, `ParseDecimalPadded` and `DecimalToStringRoundTrip` |
| `BlockCodec.ParseDecimalPoint` | ppcls/arch/backbone/model_zoo/efficientnet.py:191 | `float()` of whole + "." + frac reads the decimal with mantissa whole·frac and scale |frac| |
| `BlockCodec.ParseDecimalTrailingPoint` | ppcls/arch/backbone/model_zoo/efficientnet.py:191 | `float()` accepts digits followed by a bare point, as `float('1.')` does |
| `BlockCodec.ParseDecimalExponent` | ppcls/arch/backbone/model_zoo/efficientnet.py:191 | `float()` of a fixed-point part, `e` and a signed exponent is the fixed-point value times ten to the exponent |
| `BlockCodec.ShiftValue` | ppcls/arch/backbone/model_zoo/efficientnet.py:191 | moving the decimal point by e places multiplies the value by 10^e, for an exponent of either sign |
| `BlockCodec.ParseDecimalPadded` | ppcls/arch/backbone/model_zoo/efficientnet.py:191 | `float()` ignores white space around the value and nothing else |
| `BlockCodec.ParseIntPadded` | ppcls/arch/backbone/model_zoo/efficientnet.py:185-189 | `int()` of a digit string with white space around it returns the number |
| `BlockCodec.StripPadding` | ppcls/arch/backbone/model_zoo/efficientnet.py:185-191 | stripping removes exactly the surrounding white space of a value whose ends are not white space |
| `BlockCodec.DecimalToString` | ppcls/arch/backbone/model_zoo/efficientnet.py:203 | definition of `'se%s' % block.se_ratio`'s ratio text; properties in `DecimalCharacters`, `DecimalTextShape` and `DecimalToStringRoundTrip` |
| `BlockCodec.DecimalCharacters` | ppcls/arch/backbone/model_zoo/efficientnet.py:203 | a printed ratio contains only digits and one point |
| `BlockCodec.DecimalTextShape` | ppcls/arch/backbone/model_zoo/efficientnet.py:203 | the printed ratio starts with a digit and holds no `_`, `n` or newline, so it survives the split into tokens |
| `BlockCodec.DecimalToStringRoundTrip` | ppcls/arch/backbone/model_zoo/efficientnet.py:191 | `float()` of the printed ratio gives back the same decimal |
| `BlockCodec.StrideTextOf` | ppcls/arch/backbone/model_zoo/efficientnet.py:198-199 | for an encodable record, the corrected stride text is its stride digit written twice, which the decoder accepts |
| `BlockCodec.OptionsOfBase` | ppcls/arch/backbone/model_zoo/efficientnet.py:196-201 | the six `r k s e i o` tokens decode to exactly the dictionary of their six values |
| `BlockCodec.BaseClean` | ppcls/arch/backbone/model_zoo/efficientnet.py:196-201 | none of the six field tokens contains `_` or `n` |
| `BlockCodec.EncodedPrefix` | ppcls/arch/backbone/model_zoo/efficientnet.py:196-203 | the field tokens plus the optional `se` token decode to the dictionary of the record's fields |
| `BlockCodec.SeStep` | ppcls/arch/backbone/model_zoo/efficientnet.py:202-203 | the `se` token adds the printed canonical ratio exactly when 0 < se_ratio ≤ 1, and nothing otherwise |
| `BlockCodec.EncodedPrefixClean` | ppcls/arch/backbone/model_zoo/efficientnet.py:196-203 | the tokens before `noskip` are free of `_` and `n`, so none of them can make `noskip` appear |
| `BlockCodec.EncodedOptions` | ppcls/arch/backbone/model_zoo/efficientnet.py:195-206 | the encoder's argument list has no `_` inside a token, decodes to the record's fields, and its join contains `noskip` iff `id_skip` is false |
| `BlockCodec.SkipStep` | ppcls/arch/backbone/model_zoo/efficientnet.py:204-205 | appending `noskip` keeps the options dictionary unchanged and makes `noskip` a substring exactly when `id_skip` is false |
| `BlockCodec.EncodedIntFields` | ppcls/arch/backbone/model_zoo/efficientnet.py:185-189 | the printed `k r i o e` fields read back as the record's integers |
| `BlockCodec.EncodedFields` | ppcls/arch/backbone/model_zoo/efficientnet.py:190-192 | the encoded `s` value passes the stride assertion and decodes to the record's stride, and the `se` option is present iff the canonical record has a ratio, which it then reads back |
| `BlockCodec.IntFieldOf` | ppcls/arch/backbone/model_zoo/efficientnet.py:185-189 | a field printed with `'%d'` reads back with `int()` |
| `BlockCodec.EncodeBlock` | ppcls/arch/backbone/model_zoo/efficientnet.py:194-206 | definition of `_encode_block_string` with the `stride` field read; properties in `EncodedString` and `RoundTrip` |
| `BlockCodec.EncodedString` | ppcls/arch/backbone/model_zoo/efficientnet.py:194-206 | an encodable record encodes without error; the string's tokens decode to its fields, and the string contains `noskip` iff `id_skip` is false |
| `BlockCodec.RoundTrip` | ppcls/arch/backbone/model_zoo/efficientnet.py:165-206 | decoding the corrected encoding of a record whose stride is a one-element list `[d]` with 0 ≤ d ≤ 9, with non-negative integer fields and 0 < se ≤ 1 returns the record, with its stride as a list and its ratio in canonical form |
| `BlockCodec.EncodeBlockAsWritten` | ppcls/arch/backbone/model_zoo/efficientnet.py:194-206 | definition of `_encode_block_string` as written, reading `block.strides`; properties in `EncodeAsWrittenBreaksRoundTrip` |
| `BlockCodec.EncodeAsWrittenBreaksRoundTrip` | ppcls/arch/backbone/model_zoo/efficientnet.py:198-199 | as written, encoding any decoded record raises AttributeError; the corrected encoder succeeds on it exactly when the string had an `se` token (otherwise `0 < None` raises TypeError) |
| `BlockCodec.DecodeAll` | ppcls/arch/backbone/model_zoo/efficientnet.py:208-221 | definition of `decode`; `Decode` is proved equal to it, properties in `RoundTripAll` |
| `BlockCodec.Decode` | ppcls/arch/backbone/model_zoo/efficientnet.py:208-221 | `decode` succeeds iff every string decodes, and then returns one record per string in input order |
| `BlockCodec.EncodeAll` | ppcls/arch/backbone/model_zoo/efficientnet.py:223-234 | definition of `encode`; `Encode` is proved equal to it, properties in `RoundTripAll` |
| `BlockCodec.Encode` | ppcls/arch/backbone/model_zoo/efficientnet.py:223-234 | `encode` succeeds iff every record encodes, and then returns one string per record in input order |
| `BlockCodec.RoundTripAll` | ppcls/arch/backbone/model_zoo/efficientnet.py:208-234 | decoding the encoding of a list of encodable records gives back the list, element by element in canonical form |
| `EfficientNet.Efficientnet` | ppcls/arch/backbone/model_zoo/efficientnet.py:92-119 | definition of `efficientnet()`: the seven default block strings decoded, with the global parameters (momentum 0.99, epsilon 0.001, 1000 classes, divisor 8) and the given coefficients and rates; no lemma of its own (see Left out) |
| `EfficientNet.ModelCoefficients` | ppcls/arch/backbone/model_zoo/efficientnet.py:76-89 | a listed model has width and depth coefficients ≥ 1 and a positive resolution; every other name raises KeyError |
| `EfficientNet.CoefficientTable` | ppcls/arch/backbone/model_zoo/efficientnet.py:76-89 | the table knows exactly the eight names b0..b7; from one to the next, width, depth, resolution and dropout never decrease, and depth and resolution strictly grow |
| `EfficientNet.GetModelParams` | ppcls/arch/backbone/model_zoo/efficientnet.py:122-133 | definition of `get_model_params`; properties in `GetModelParamsUnsupported`, `GetModelParamsUnknown`, `GetModelParamsListed` and `ApplyAllFrame` |
| `EfficientNet.GetModelParamsUnsupported` | ppcls/arch/backbone/model_zoo/efficientnet.py:122-133 | a model name not starting with `efficientnet` raises NotImplementedError |
| `EfficientNet.GetModelParamsUnknown` | ppcls/arch/backbone/model_zoo/efficientnet.py:122-133 | an `efficientnet…` name missing from the table raises KeyError |
| `EfficientNet.GetModelParamsListed` | ppcls/arch/backbone/model_zoo/efficientnet.py:92-133 | for a listed model, an unknown override raises ValueError, and no overrides give the default block list and the global parameters with the table's width, depth and dropout |
| `EfficientNet.ApplyAllFrame` | ppcls/arch/backbone/model_zoo/efficientnet.py:131-132 | `_replace` changes only the fields named: width, depth and divisor survive overrides that do not name them, and the last width override wins |
| `EfficientNet.RoundFilters` | ppcls/arch/backbone/model_zoo/efficientnet.py:136-149 | definition of `round_filters`; properties in `RoundFiltersUnscaled`, `RoundFiltersRounded`, `RoundFiltersNear` and `HeadInputIsRoundedLastStage` |
| `EfficientNet.NearestMultipleBound` | ppcls/arch/backbone/model_zoo/efficientnet.py:144-146 | rounding f to the nearest multiple of the divisor loses less than half a divisor |
| `EfficientNet.RoundFiltersUnscaled` | ppcls/arch/backbone/model_zoo/efficientnet.py:136-143 | a falsy width coefficient returns the filter count unchanged; a truthy one with divisor 0 raises ZeroDivisionError |
| `EfficientNet.BumpBounds` | ppcls/arch/backbone/model_zoo/efficientnet.py:144-148 | the 10% guard keeps the result ≥ min_depth, keeps multiples of the divisor, and leaves it ≥ 0.9 of the scaled count |
| `EfficientNet.RoundFiltersRounded` | ppcls/arch/backbone/model_zoo/efficientnet.py:136-149 | a scaled width is ≥ min_depth (the divisor by default), and a multiple of the divisor whenever min_depth is, in particular with the default |
| `EfficientNet.RoundFiltersNear` | ppcls/arch/backbone/model_zoo/efficientnet.py:136-149 | a scaled width is at least 0.9 times filters·width, which is the "no more than 10% down" guard |
| `EfficientNet.RoundRepeats` | ppcls/arch/backbone/model_zoo/efficientnet.py:152-157 | definition of `round_repeats`; properties in `RoundRepeatsSpec` |
| `EfficientNet.RoundRepeatsSpec` | ppcls/arch/backbone/model_zoo/efficientnet.py:152-157 | a falsy depth coefficient returns repeats unchanged; otherwise the result is the least integer ≥ depth·repeats, hence ≥ repeats when depth ≥ 1 |
| `EfficientNet.CalPadding` | ppcls/arch/backbone/model_zoo/efficientnet.py:258-264 | definition of `cal_padding`; properties in `CalPaddingSplit`, `SameTotalIsCeilPadding` and `SameOutputArith` |
| `EfficientNet.CalPaddingSplit` | ppcls/arch/backbone/model_zoo/efficientnet.py:258-264 | `cal_padding` returns two non-negative halves summing to max(filter − (stride or img % stride), 0), the first being the floor half and the second equal to it or one more; it raises only for stride 0 |
| `EfficientNet.SameTotalIsCeilPadding` | ppcls/arch/backbone/model_zoo/efficientnet.py:258-264 | the total padding is the TensorFlow SAME padding max((⌈img/s⌉ − 1)·s + k − img, 0) |
| `EfficientNet.SameOutputArith` | ppcls/arch/backbone/model_zoo/efficientnet.py:320-331 | the halves differ iff the total is odd; equal halves give an output of ⌈n/s⌉, and padding top + stride then cropping one row and column also gives ⌈n/s⌉ |
| `EfficientNet.ConvPaddingOf` | ppcls/arch/backbone/model_zoo/efficientnet.py:313-339 | definition of the padding selection of `Conv2ds.__init__`; properties in `SamePaddingOutput` |
| `EfficientNet.SamePaddingOutput` | ppcls/arch/backbone/model_zoo/efficientnet.py:313-361 | in SAME mode `Conv2ds` pads both sides equally, crops exactly when the total padding is odd, and the cropped output size is ⌈n/s⌉ |
| `EfficientNet.FloorPart` | ppcls/arch/backbone/model_zoo/efficientnet.py:320-331 | when the SAME padding is clamped to 0, the plain convolution output still equals ⌈n/s⌉ |
| `EfficientNet.InpShape` | ppcls/arch/backbone/model_zoo/efficientnet.py:267-277 | definition of `inp_shape`; properties in `InpShapeResolution`, `InpShapeStrides` and `Features.ExpansionStagesFit` |
| `EfficientNet.InpShapeResolution` | ppcls/arch/backbone/model_zoo/efficientnet.py:267-277 | the first entry of each `inp_shape` list is the model's input resolution from the coefficient table |
| `EfficientNet.InpShapeStrides` | ppcls/arch/backbone/model_zoo/efficientnet.py:267-277 | each `inp_shape` list is the chain of ⌈size/stride⌉ feature sizes for the stage strides of the default blocks |
| `EfficientNet.CeilDivStep` | ppcls/arch/backbone/model_zoo/efficientnet.py:267-277 | a value bracketed between (c − 1)·s and c·s has ⌈a/s⌉ = c, for s ∈ {1, 2} |
| `EfficientNet.HeadInputChannels` | ppcls/arch/backbone/model_zoo/efficientnet.py:789-803 | definition of the head's input widths per model; properties in `HeadInputIsRoundedLastStage` |
| `EfficientNet.HeadInputIsRoundedLastStage` | ppcls/arch/backbone/model_zoo/efficientnet.py:789-803 | the head's hard-coded input channels per model equal `round_filters(320)` with that model's parameters |
| `EfficientNet.HasSe` | ppcls/arch/backbone/model_zoo/efficientnet.py:576-577 | definition of `has_se`: SE is used and `se_ratio` is present with 0 < se_ratio ≤ 1; no lemma of its own (see Left out) |
| `EfficientNet.SqueezedChannels` | ppcls/arch/backbone/model_zoo/efficientnet.py:601-603 | definition of the SE squeeze width; properties in `SqueezedChannelsBounds` |
| `EfficientNet.SqueezedChannelsBounds` | ppcls/arch/backbone/model_zoo/efficientnet.py:601-603 | the squeeze width max(1, ⌊input·se⌋) is at least 1 and at most the input width when 0 ≤ se ≤ 1 |
| `EfficientNet.HasExpansion` | ppcls/arch/backbone/model_zoo/efficientnet.py:582-583 | definition of the `expand_ratio != 1` test that decides whether `MbConvBlock` builds and runs the expansion convolution (also efficientnet.py:624-626); no lemma of its own (see Left out) |
| `EfficientNet.HasResidual` | ppcls/arch/backbone/model_zoo/efficientnet.py:634-639 | definition of the residual condition of `MbConvBlock`; properties in `DecodedHasNoResidual` and `Features.ExpansionResiduals` |
| `EfficientNet.AppliesDropConnect` | ppcls/arch/backbone/model_zoo/efficientnet.py:634-638 | definition of the drop-connect condition of `MbConvBlock.forward`: the residual branch is taken and the drop-connect rate is truthy; no lemma of its own (see Left out) |
| `EfficientNet.DecodedHasNoResidual` | ppcls/arch/backbone/model_zoo/efficientnet.py:634-639 | a freshly decoded record never takes the residual path, because its stride is a list and `[1] == 1` is false |
| `Features.DropRate` | ppcls/arch/backbone/model_zoo/efficientnet.py:716-718 | definition of the per-block drop-connect rate; properties in `ExpansionDropRate`, `ExpansionDropRatesGrow` and `RateOrder` |
| `Features.RepeatArgs` | ppcls/arch/backbone/model_zoo/efficientnet.py:734-736 | definition of the `_replace` for repeated blocks; properties in `ExpansionArgs` and `ExpansionResiduals` |
| `Features.SublayerName` | ppcls/arch/backbone/model_zoo/efficientnet.py:720-742 | definition of the sub-layer names; properties in `SublayerNameInjective`, `SublayerNameFirst` and `ExpansionNamesDistinct` |
| `Features.RoundArgs` | ppcls/arch/backbone/model_zoo/efficientnet.py:692-700 | `_replace` changes only the input and output filters (both from `round_filters`) and the repeat count (from `round_repeats`), and fails iff `round_filters` does |
| `Features.StageCount` | ppcls/arch/backbone/model_zoo/efficientnet.py:734-736 | every stage contributes at least its first block |
| `Features.BlockSize` | ppcls/arch/backbone/model_zoo/efficientnet.py:691-703 | `block_size` is at least the number of stages |
| `Features.StageBlocks` | ppcls/arch/backbone/model_zoo/efficientnet.py:712-755 | one stage contributes as many blocks as its stage count |
| `Features.Expansion` | ppcls/arch/backbone/model_zoo/efficientnet.py:705-755 | the expansion produces exactly `block_size` blocks |
| `Features.FeatureBlocks` | ppcls/arch/backbone/model_zoo/efficientnet.py:691-755 | definition of what the two loops of `ExtractFeatures.__init__` build; `ExtractFeatures` is proved equal to it, properties in `FeatureBlocksCases`, `ExpansionShape` and `ExpansionOrder` |
| `Features.ExtractFeatures` | ppcls/arch/backbone/model_zoo/efficientnet.py:691-755 | the two loops of `ExtractFeatures.__init__` compute the block-list specification |
| `Features.CountBlocks` | ppcls/arch/backbone/model_zoo/efficientnet.py:691-703 | the first loop fails iff rounding some stage fails, with that stage's exception, and otherwise counts `block_size` |
| `Features.BuildBlocks` | ppcls/arch/backbone/model_zoo/efficientnet.py:705-755 | the second loop builds exactly the expansion of the rounded stages |
| `Features.AppendStage` | ppcls/arch/backbone/model_zoo/efficientnet.py:712-755 | one pass of the stage loop appends exactly that stage's blocks, leaving the earlier blocks unchanged |
| `Features.ExpansionStep` | ppcls/arch/backbone/model_zoo/efficientnet.py:705-755 | expanding one more stage appends its blocks after those of the earlier stages |
| `Features.BlockSizePrefix` | ppcls/arch/backbone/model_zoo/efficientnet.py:691-703 | the blocks of the first n stages number no more than `block_size` |
| `Features.BlockSizeMono` | ppcls/arch/backbone/model_zoo/efficientnet.py:691-703 | the block count grows with the number of stages counted |
| `Features.BlockAtExtend` | ppcls/arch/backbone/model_zoo/efficientnet.py:705-755 | a block described by the first stages is still described after one more stage |
| `Features.BlockAtLast` | ppcls/arch/backbone/model_zoo/efficientnet.py:712-755 | the blocks of the last stage carry their index, that stage's number, its arguments and the linear drop rate |
| `Features.ExpansionShape` | ppcls/arch/backbone/model_zoo/efficientnet.py:705-755 | every block i of the expansion has index i, lies in the stage whose index range holds i, and has that stage's arguments and drop rate |
| `Features.ExpansionOrder` | ppcls/arch/backbone/model_zoo/efficientnet.py:705-755 | block indices run 0..block_size−1 in order, and stage numbers are between 1 and the stage count and never decrease |
| `Features.ExpansionDropRate` | ppcls/arch/backbone/model_zoo/efficientnet.py:716-718 | the drop rate of block i is rate·i/block_size when the rate is truthy, and otherwise the rate itself; a positive rate gives values in [0, rate) |
| `Features.ExpansionDropRatesGrow` | ppcls/arch/backbone/model_zoo/efficientnet.py:738-740 | with a positive drop-connect rate, later blocks get strictly larger drop rates |
| `Features.RateOrder` | ppcls/arch/backbone/model_zoo/efficientnet.py:716-718 | rate·i/n is non-negative, strictly increasing in i, and at most the rate |
| `Features.ExpansionResiduals` | ppcls/arch/backbone/model_zoo/efficientnet.py:734-736 | every block after a stage's first has input filters equal to output filters and stride 1, and the residual path is taken exactly by those blocks with `id_skip` |
| `Features.ExpansionArgs` | ppcls/arch/backbone/model_zoo/efficientnet.py:712-736 | the first block of a stage has the stage's rounded arguments; a later one exists only when the stage repeats, and has the replaced arguments |
| `Features.SublayerNameInjective` | ppcls/arch/backbone/model_zoo/efficientnet.py:720-742 | different (first-of-stage, index) pairs give different sub-layer names |
| `Features.SublayerNameFirst` | ppcls/arch/backbone/model_zoo/efficientnet.py:720-742 | first blocks are named `_blocks.<i>.` and repeats `block.<i>.` |
| `Features.ExpansionNamesDistinct` | ppcls/arch/backbone/model_zoo/efficientnet.py:720-742 | no two blocks of the expansion are registered under the same sub-layer name |
| `Features.ExpansionStagesFit` | ppcls/arch/backbone/model_zoo/efficientnet.py:267-277 | with at most seven stages, every block's `cur_stage` lies in 1..7, so its `inp_shape` lookup succeeds |
| `Features.FeatureBlocksCases` | ppcls/arch/backbone/model_zoo/efficientnet.py:691-755 | building the blocks succeeds iff every stage rounds, and then yields the expansion of the rounded stages, one per stage and of length `block_size`; a truthy width with divisor 0 raises ZeroDivisionError |
| `Features.FirstFailure` | ppcls/arch/backbone/model_zoo/efficientnet.py:692-700 | with a truthy width and divisor 0, the first stage already raises ZeroDivisionError |
| `RandAugment.SolarizeTable` | ppcls/data/preprocess/ops/randaugment.py:27-32 | definition of the `solarize_add` lookup table; `SolarizeLut` is proved equal to it, properties in `SolarizeTableFacts` |
| `RandAugment.SolarizeLut` | ppcls/data/preprocess/ops/randaugment.py:27-32 | the appending loop builds exactly the table of entries min(255, i + add) below thresh and i from thresh on |
| `RandAugment.SolarizeTableFacts` | ppcls/data/preprocess/ops/randaugment.py:27-32 | the table has 256 entries, each ≤ 255, the identity at or above thresh and min(255, i + add) below it, and never below i when add ≥ 0 |
| `RandAugment.RgbPointTable` | ppcls/data/preprocess/ops/randaugment.py:33-36 | an RGB image gets the 256-entry table three times over: 768 entries, entry k being the table's entry k mod 256 |
| `RandAugment.SolarizeAddSpec` | ppcls/data/preprocess/ops/randaugment.py:26-38 | definition of `solarize_add`; `SolarizeAdd` is proved equal to it, properties in `SolarizeAddModes` and `RgbPointTable` |
| `RandAugment.SolarizeAdd` | ppcls/data/preprocess/ops/randaugment.py:26-38 | the method returns exactly the mode-dispatch specification |
| `RandAugment.SolarizeAddModes` | ppcls/data/preprocess/ops/randaugment.py:33-38 | mode L gets the table, RGB gets the table three times, and every other mode is returned unchanged |
| `RandAugment.Cutout` | ppcls/data/preprocess/ops/randaugment.py:41-70 | definition of `cutout`; properties in `CutoutGeometryBounds`, `MaskedSquare` and `CutoutMask` |
| `RandAugment.CutoutGeometryBounds` | ppcls/data/preprocess/ops/randaugment.py:46-58 | for a centre inside the image and pad ≥ 0, all four pads are ≥ 0, lower + cut height + upper is H, left + cut width + right is W, and both cut sizes are at most 2·pad |
| `RandAugment.MaskedSquare` | ppcls/data/preprocess/ops/randaugment.py:54-61 | a pixel lies in the zero band exactly when it lies within pad of the centre in both directions (half-open) |
| `RandAugment.CutoutMask` | ppcls/data/preprocess/ops/randaugment.py:41-70 | cutout succeeds exactly for pad ≥ 0 and 1 or 3 channels, and otherwise raises ValueError; the result keeps the image size with 3 channels, puts `replace` in every channel of each pixel in the band, and leaves every other pixel as it was (a grey channel repeated three times) |
| `RandAugment.LevelMapV1` | ppcls/data/preprocess/ops/randaugment.py:80-95 | definition of `RandAugment`'s `level_map`; properties in `ConsistentV1`, `AgreeV1` and `IntLevelBounds` |
| `RandAugment.FuncV1` | ppcls/data/preprocess/ops/randaugment.py:107-150 | definition of `RandAugment`'s `func` keys; properties in `ConsistentV1` |
| `RandAugment.ConsistentV1` | ppcls/data/preprocess/ops/randaugment.py:79-150 | `RandAugment`'s `level_map` and `func` have the same 14 keys, so no drawn name lacks an implementation, and every `func` entry is the `RandAugment` version of the operation its key names |
| `RandAugment.AgreeV1` | ppcls/data/preprocess/ops/randaugment.py:79-150 | the key list drawn from is the `level_map` key set, and every key has an implementation |
| `RandAugment.LevelMapV2` | ppcls/data/preprocess/ops/randaugment.py:189-206 | definition of `RandAugmentV2`'s `level_map`; properties in `ConsistentV2`, `AgreeV2`, `V2AddsTwo` and `IntLevelBounds` |
| `RandAugment.FuncV2` | ppcls/data/preprocess/ops/randaugment.py:218-262 | definition of `RandAugmentV2`'s `func` keys; properties in `ConsistentV2` |
| `RandAugment.ConsistentV2` | ppcls/data/preprocess/ops/randaugment.py:188-262 | `RandAugmentV2`'s `level_map` and `func` have the same 16 keys, and every `func` entry is the `RandAugmentV2` version of the operation its key names |
| `RandAugment.AgreeV2` | ppcls/data/preprocess/ops/randaugment.py:188-262 | the V2 key list is the V2 `level_map` key set, and every key has a V2 implementation |
| `RandAugment.V2AddsTwo` | ppcls/data/preprocess/ops/randaugment.py:188-206 | the V2 keys are the V1 keys plus exactly `solarize_add` and `cutout`, neither of which V1 has |
| `RandAugment.TruncBetween` | ppcls/data/preprocess/ops/randaugment.py:87 | `int()` of a value in [0, c] lies in 0..c |
| `RandAugment.IntLevelBounds` | ppcls/data/preprocess/ops/randaugment.py:186-206 | for a magnitude in [0, 10], the posterize level lies in 0..4 (V1 and V2), and in V2 the solarize level lies in 0..256, the solarize_add level in 0..110 and the cutout level in 0..40 |
| `RandAugment.Layers` | ppcls/data/preprocess/ops/randaugment.py:152-157 | definition of the lookups the drawn layers make; properties in `LayersStopped` and `LayersFound` |
| `RandAugment.CallSpec` | ppcls/data/preprocess/ops/randaugment.py:152-157 | definition of `RandAugment.__call__`; `Call` is proved equal to it, properties in `CallDrawn` and `ApplyStepsAppend` |
| `RandAugment.LayersStopped` | ppcls/data/preprocess/ops/randaugment.py:152-157 | once a drawn name is missing, the drawing stays failed with the same error |
| `RandAugment.Call` | ppcls/data/preprocess/ops/randaugment.py:152-157 | the `num_layers` loop returns exactly the sequencing specification |
| `RandAugment.LayersFound` | ppcls/data/preprocess/ops/randaugment.py:152-157 | the n drawn steps exist iff every drawn name is in both tables (KeyError otherwise), and step k is the implementation and level of the k-th drawn name |
| `RandAugment.ApplyStepsAppend` | ppcls/data/preprocess/ops/randaugment.py:154-157 | applying steps a + b is applying a, then b |
| `RandAugment.CallDrawn` | ppcls/data/preprocess/ops/randaugment.py:152-157 | with names drawn from the key list of a consistent policy, `__call__` applies exactly max(0, num_layers) operations in draw order, each with its key's level, and returns the image unchanged when num_layers ≤ 0 |
| `RandAugment.RandomApply` | ppcls/data/preprocess/ops/randaugment.py:160-174 | definition of `RandomApply.__call__`; properties in `RandomApplyGate` |
| `RandAugment.RandomApplyGate` | ppcls/data/preprocess/ops/randaugment.py:160-174 | the transforms are applied in list order when draw ≤ p (always for p ≥ 1) and skipped when p < draw (always for p < 0); an empty list changes nothing |
| `Preprocess.Transform` | ppcls/data/preprocess/__init__.py:61-65 | the loop returns the operators applied in list order |
| `Preprocess.TransformLaws` | ppcls/data/preprocess/__init__.py:61-65 | no operators return the data unchanged, one operator applies it once, and a + b is a then b |
| `Preprocess.ToArray` | ppcls/data/preprocess/__init__.py:99-100 | the conversion back always yields an array |
| `Preprocess.Wrapped` | ppcls/data/preprocess/__init__.py:68-122 | definition of the `__call__` shared by the AutoAugment, RandAugment and RandAugmentV2 wrappers; properties in `WrappedConverts` |
| `Preprocess.WrappedConverts` | ppcls/data/preprocess/__init__.py:87-103 | the wrapper always returns an array; a PIL result of the policy is converted back, and the policy receives the PIL image, or the array converted to PIL |
| `Preprocess.TimmWrapped` | ppcls/data/preprocess/__init__.py:125-142 | definition of `TimmAutoAugment.__call__`; properties in `TimmGate` |
| `Preprocess.TimmGate` | ppcls/data/preprocess/__init__.py:125-142 | the policy runs exactly when draw < prob (so always for prob ≥ 1 and never for prob ≤ 0); otherwise the image only round-trips through PIL; the result is always an array |
| `Preprocess.RandAugmentWrapped` | ppcls/data/preprocess/__init__.py:87-122 | definition of the RandAugment and RandAugmentV2 wrappers over a modelled policy; properties in `RandAugmentWrappedDrawn` |
| `Preprocess.RandAugmentWrappedDrawn` | ppcls/data/preprocess/__init__.py:87-103 | the `RandAugment` wrapper applies the drawn operations in order to the PIL form of the image and returns an array, which is the converted input when num_layers ≤ 0 |
| `Train.OccAppend` | ppcls/engine/train/train.py:22-106 | occurrences in a concatenated log add up |
| `Train.FetchStep` | ppcls/engine/train/train.py:30-37 | definition of one batch fetch with its recreation on exhaustion; `Engine.Fetch` is proved equal to it, properties in `FetchStepFacts`, `FetchOcc` and `RenewOcc` |
| `Train.FetchOcc` | ppcls/engine/train/train.py:30-37 | a fetch adds exactly its own fetch events to the log |
| `Train.RenewOcc` | ppcls/engine/train/train.py:32-37 | on an exhausted iterator the log gains the DALI reset (if used), a new iterator and the batch |
| `Train.FetchStepFacts` | ppcls/engine/train/train.py:30-37 | a fetch keeps the step counter and leaves an iterator; it fails only with StopIteration on an empty loader; the iterator is recreated (after a DALI reset if used) exactly when exhausted; one batch is consumed; nothing else is logged |
| `Train.ForwardInputs` | ppcls/engine/train/train.py:109-113 | the model gets batch[0] and batch[1] exactly when `is_rec`, and batch[0] otherwise; a too-short batch raises IndexError |
| `Train.Engine.constructor` | ppcls/engine/train/train.py:22-26 | a fresh engine has step 0, no iterator and an empty log |
| `Train.Engine.Fetch` | ppcls/engine/train/train.py:30-37 | the fetch updates the engine as the fetch specification says |
| `Train.Engine.StepOptimizers` | ppcls/engine/train/train.py:68-78 | steps every optimiser in index order, through the scaler under AMP |
| `Train.Engine.ClearAllGrads` | ppcls/engine/train/train.py:82-83 | clears every optimiser's gradients in index order |
| `Train.Engine.StepSchedulers` | ppcls/engine/train/train.py:102-106 | steps the schedulers selected by `by_epoch` (and, per epoch, not ReduceOnPlateau), in index order |
| `Train.Engine.TrainIteration` | ppcls/engine/train/train.py:29-100 | one loop iteration changes the engine as the iteration specification says |
| `Train.Engine.RunBody` | ppcls/engine/train/train.py:39-100 | after the fetch, an iteration adds one to `global_step` and appends the body's events |
| `Train.Engine.LogPre` | ppcls/engine/train/train.py:40-75 | logs the `iter_id == 5` reset, the label reshape, the forward and the backward call |
| `Train.Engine.LogAfterBackward` | ppcls/engine/train/train.py:71-99 | logs the window events, the metric and loss updates, and `log_info` when due; `print_batch_step` 0 raises ZeroDivisionError |
| `Train.Engine.CloseWindow` | ppcls/engine/train/train.py:71-90 | at a window end, logs the optimiser steps and the window events; elsewhere logs nothing |
| `Train.Engine.FinishWindow` | ppcls/engine/train/train.py:80-90 | logs `clear_grad` for each optimiser, the by-step scheduler steps, and the EMA update when enabled |
| `Train.Engine.TrainEpoch` | ppcls/engine/train/train.py:22-106 | `train_epoch` changes the engine (step, iterator, log) and raises exactly as the epoch specification says |
| `Train.LoopStopped` | ppcls/engine/train/train.py:28-100 | an exception in iteration k ends the epoch with that exception and that state |
| `Train.OptimizerStepsOcc` | ppcls/engine/train/train.py:71-78 | each optimiser below the count is stepped exactly once per window, by the scaler iff AMP |
| `Train.OptimizerStepsOrder` | ppcls/engine/train/train.py:72-78 | the optimiser steps are in index order 0..n−1 |
| `Train.ClearGradsOcc` | ppcls/engine/train/train.py:82-83 | each optimiser's gradients are cleared exactly once per window |
| `Train.ClearGradsShape` | ppcls/engine/train/train.py:82-83 | the clears are in index order |
| `Train.SchedulerStepsOcc` | ppcls/engine/train/train.py:85-87 | exactly the selected schedulers step, once each |
| `Train.SchedulerStepsOnly` | ppcls/engine/train/train.py:85-87 | this part of the log holds scheduler steps only |
| `Train.WindowOcc` | ppcls/engine/train/train.py:68-90 | a window end logs each optimiser step, gradient clear, by-step scheduler step and EMA update (if enabled) exactly once |
| `Train.WindowOrder` | ppcls/engine/train/train.py:68-90 | at a window end, all optimiser steps come first in index order, then the clears in index order, and no optimiser step comes after them |
| `Train.LogEventsOcc` | ppcls/engine/train/train.py:98-99 | `log_info` is called in iteration i iff i % print_batch_step == 0 |
| `Train.PreEventsOcc` | ppcls/engine/train/train.py:40-75 | the time meters are reset only at iteration 5; labels are reshaped unless multilabel; one forward with the labels iff `is_rec`, and one backward scaled iff AMP |
| `Train.WindowPartOcc` | ppcls/engine/train/train.py:71-90 | window events occur once in an iteration iff (i + 1) % update_freq == 0 |
| `Train.PiecesOcc` | ppcls/engine/train/train.py:39-99 | the occurrences in the body pieces sum to the per-iteration count |
| `Train.BodyOcc` | ppcls/engine/train/train.py:39-99 | a body with nonzero divisors does not raise, and logs each event as often as the per-iteration count says |
| `Train.FloorDivStep` | ppcls/engine/train/train.py:71 | n // d grows by one exactly at multiples of d |
| `Train.WindowCountValue` | ppcls/engine/train/train.py:71 | the number of i in 0..n−1 with (i + 1) % update_freq == 0 is n // update_freq |
| `Train.BodySumWindow` | ppcls/engine/train/train.py:68-90 | over n iterations, each window event occurs n // update_freq times |
| `Train.BodySumEvery` | ppcls/engine/train/train.py:45-96 | the per-iteration events (forward, backward, reshape unless multilabel, metric and loss updates) occur n times |
| `Train.BodySumAbsent` | ppcls/engine/train/train.py:46-75 | the other forward and backward shapes, and the reshape under multilabel, never occur |
| `Train.BodySumReset` | ppcls/engine/train/train.py:40-42 | the time meters are reset once when more than 5 iterations run, and never otherwise |
| `Train.BodySumLog` | ppcls/engine/train/train.py:98-99 | `log_info(j)` occurs once iff 0 ≤ j < n and j % print_batch_step == 0 |
| `Train.Iteration` | ppcls/engine/train/train.py:29-100 | definition of one loop iteration; `Engine.TrainIteration` is proved equal to it, properties in `IterationOcc`, `IterationState` and `IterationFetchOcc` |
| `Train.IterationOcc` | ppcls/engine/train/train.py:29-100 | an iteration that cannot raise adds one to the step, updates the iterator as the fetch does, and logs the fetch and body events |
| `Train.IterationLogOcc` | ppcls/engine/train/train.py:39-100 | the non-fetch events of an iteration are exactly the body's |
| `Train.IterationState` | ppcls/engine/train/train.py:29-48 | an iteration advances `global_step` by one and leaves the iterator as the fetch does |
| `Train.IterationFetchOcc` | ppcls/engine/train/train.py:30-37 | the fetch events of an iteration are exactly the fetch's |
| `Train.IterStepRuns` | ppcls/engine/train/train.py:29-100 | an iteration that cannot raise consumes one batch and adds one to the step; within a pass it creates no iterator |
| `Train.IterStepBody` | ppcls/engine/train/train.py:39-100 | each non-fetch event is logged per iteration as the per-iteration count says |
| `Train.LoopRuns` | ppcls/engine/train/train.py:28-48 | n iterations raise nothing, add n to `global_step`, fetch n batches, and leave an iterator inside its pass |
| `Train.LoopOcc` | ppcls/engine/train/train.py:28-100 | the log of n iterations holds the sum of the per-iteration counts |
| `Train.LoopWithinPass` | ppcls/engine/train/train.py:25-37 | n iterations that fit in the current pass consume n batches and never recreate or reset the iterator |
| `Train.Epoch` | ppcls/engine/train/train.py:22-106 | definition of `train_epoch`; `Engine.TrainEpoch` is proved equal to it, properties in `EpochUnfold`, `EpochRuns`, `EpochOcc` and the other `Epoch…` rows |
| `Train.EpochUnfold` | ppcls/engine/train/train.py:22-106 | an epoch is the iterator set-up, the loop, then the per-epoch scheduler steps |
| `Train.EpochRuns` | ppcls/engine/train/train.py:22-48 | `global_step` grows by exactly `iter_per_epoch` per epoch and one batch is fetched per iteration |
| `Train.EpochOcc` | ppcls/engine/train/train.py:22-106 | an epoch logs each non-fetch event as often as the iterations' counts, plus once at the end for a per-epoch scheduler step |
| `Train.EpochOptimizerSteps` | ppcls/engine/train/train.py:68-78 | each optimiser steps iter_per_epoch // update_freq times per epoch, through the scaler iff AMP |
| `Train.EpochClearGrads` | ppcls/engine/train/train.py:80-83 | each optimiser is cleared iter_per_epoch // update_freq times per epoch |
| `Train.EpochSchedulerSteps` | ppcls/engine/train/train.py:85-106 | a by-step scheduler steps iter_per_epoch // update_freq times, a by-epoch one once, and a by-epoch ReduceOnPlateau never |
| `Train.EpochEma` | ppcls/engine/train/train.py:88-90 | the EMA updates iter_per_epoch // update_freq times when enabled, and never otherwise |
| `Train.EpochEveryIteration` | ppcls/engine/train/train.py:45-96 | forward, backward (on loss / update_freq), reshape unless multilabel, and the metric and loss updates happen once per iteration |
| `Train.EpochNeverOtherwise` | ppcls/engine/train/train.py:46-75 | the forward and backward shapes that do not match the configuration never occur, and neither does the reshape under multilabel |
| `Train.EpochTrailingWindow` | ppcls/engine/train/train.py:65-83 | backward passes = update_freq · clears + iter_per_epoch % update_freq: the trailing partial window is never stepped or cleared |
| `Train.EpochTimeReset` | ppcls/engine/train/train.py:40-42 | the time meters are reset exactly once per epoch when iter_per_epoch > 5, and never otherwise |
| `Train.EpochLogInfo` | ppcls/engine/train/train.py:98-99 | `log_info` is called exactly for the iterations with iter_id % print_batch_step == 0 |
| `Train.EpochIterator` | ppcls/engine/train/train.py:25-37 | an epoch that fits in the loader pass creates an iterator only if there was none, never resets DALI, and consumes `iter_per_epoch` batches |
| `Train.EpochStops` | ppcls/engine/train/train.py:28-99 | an empty loader raises StopIteration before any step; `update_freq` or `print_batch_step` 0 raises ZeroDivisionError in the first iteration, after one step |

## Left out

- Floating point: Python floats are exact reals. For example, `int(0.29 * 100)` is 28 in Python but 29 over the reals. The real-valued magnitudes of `level_map` are modelled only through their key sets and the integer levels.
- `BlockCodec.FirstDigit`: only the ASCII digits 0-9 count as `\d`. Python's `re` also matches other Unicode decimal digits, such as Arabic-Indic ٣, and `int()` reads them.
- `BlockCodec.ParseInt`: only ASCII white space is stripped, and only ASCII digits are read. Python's `int()` also strips Unicode white space and reads Unicode digits. A sign or an underscore cannot reach it, because an option value starts with a digit and contains no `_`.
- `BlockCodec.ParseDecimal`: only ASCII white space is stripped, and only ASCII digits are read, as for `ParseInt`. A sign before the digits, an underscore, `inf` or `nan` cannot reach it, for the same reason.
- `BlockCodec.BuildRecord`: it inherits the ASCII-only reading of `ParseInt` and `ParseDecimal`. A field with a non-ASCII digit or non-ASCII white space fails here, where Python may succeed.
- `BlockCodec.DecodeBlockString`: it inherits the ASCII-only reading of `FirstDigit`, `ParseInt` and `ParseDecimal`, with the same consequence.
- `BlockCodec.Canonical`: this is the fixed-point text `'%s'` gives a ratio of at least 1e-4. Python prints a smaller ratio with an exponent: 0.00005 prints as `5e-05`. The encoder prints it in fixed point as `0.00005`. Both read back to the same value.
- `Features.FeatureBlocks`: it starts at the two loops; the stem is left out as described for `ExtractFeatures` on the next line.
- `Features.ExtractFeatures`: the stem `ConvStemNorm` (ppcls/arch/backbone/model_zoo/efficientnet.py:684-689), built before the two loops, is not modelled. Its `round_filters(32, ...)` call raises ZeroDivisionError for a truthy width with divisor 0 even when `_block_args` is empty, where the model returns an empty block list. The `Conv2ds` lookups made while the layers are built are not modelled either.
- Image kernels: PIL and numpy operations are uninterpreted function parameters. These are `ImageEnhance`, `ImageOps`, affine `transform`, `rotate_with_fill`, `Image.fromarray` and `np.asarray`.
- Randomness:
  - Random draws are caller-supplied parameters, and their distributions are not modelled.
  - The `random.choice` sign draws (`rnd_ch_op`) inside the `func` operations are not modelled; those operations are opaque parameters.
  - `progress_magnitude` is not modelled, because nothing reads it.
- `RandAugment.Call`: an empty `level_map`, where `np.random.choice` would raise numpy's ValueError, cannot arise, so it is not modelled.
- Tensor code in `efficientnet.py` is not modelled, because it is framework calls:
  - every `forward` and layer construction (`Conv2D`, `BatchNorm`, `Linear`, `Dropout`);
  - the activations, `_drop_connect` and `ParamAttr` naming.
- The `Conv2ds` crop (ppcls/arch/backbone/model_zoo/efficientnet.py:360-361) is modelled only through the output size it yields.
- `EfficientNet.ConvPaddingOf`: the pass-through branch of `Conv2ds` (ppcls/arch/backbone/model_zoo/efficientnet.py:337-338) is modelled only for an integer padding (`Given`). The default `padding_type=None` (efficientnet.py:304) and other non-integer values handed on to `Conv2D` are not modelled, because `EfficientNet` and its `EfficientNetB*` factories default to the string `SAME` or `DYNAMIC` and hand it on unchanged.
- Pretrained weights: `_load_pretrained`, `MODEL_URLS` and the download are I/O. The `EfficientNetB*` factories are thin wrappers.
- `EfficientNet.Efficientnet`: it decodes the default block strings; no lemma computes that decoding, because the concrete evaluation is too costly to prove.
- `EfficientNet.HasSe`, `EfficientNet.HasExpansion`, `EfficientNet.AppliesDropConnect`: these are definitions of the `MbConvBlock` conditions, with no lemma of their own. The residual condition has `DecodedHasNoResidual` and `Features.ExpansionResiduals`.
- Python 3's `0 < None` `TypeError` in the corrected encoder: it is kept as written.
- `RandAugment.CutoutMask`:
  - It covers images given as H×W×C arrays with C = 1 or 3.
  - A 2-D greyscale array without a channel axis is not modelled.
  - The dtype of `replace` is not modelled.
- `RandAugment.RandomApplyGate`: the transforms are given as a list of functions. How `RandomApply.__init__` turns configuration names into transforms with `eval` is not modelled.
- `Preprocess`: the AutoAugment and Timm policy bodies are opaque; `autoaugment.py` and `timm_autoaugment.py` are not part of this model.
- `Preprocess.TimmGate`: the `@format_data` decorator on `TimmAutoAugment.__call__` is not modelled; `ppcls/data/preprocess/ops/operators.py` is not part of this model.
- Training:
  - Every fetch failure is loader exhaustion at the end of a pass of `loaderLen` batches; other exceptions from the loader are not modelled.
  - A loader that is still empty after it is recreated raises StopIteration.
- Training internals are abstract events or are left out:
  - timing (`time.time`) and the `reader_cost` and `batch_cost` meter updates;
  - the profiler step;
  - the AMP `auto_cast` context and its level;
  - the loss function and the contents of `loss_dict`;
  - autograd;
  - the internals of `update_metric`, `update_loss` and `log_info`;
  - the optimiser and scheduler implementations.
- `Train.ForwardInputs`: the model call itself is opaque. Only the arguments it receives are modelled.

## Findings

| source | as written | input that shows it | evidently intended | confidence | as-written member | corrected member |
|---|---|---|---|---|---|---|
| ppcls/arch/backbone/model_zoo/efficientnet.py:198-199 | `_encode_block_string` reads `block.strides[0]` and `block.strides[1]`. `BlockArgs` has no `strides` field, only `stride` (lines 67-70), so every call raises AttributeError. `encode` therefore never succeeds on a non-empty list (`encode([])` is `[]`). | any decoded record, e.g. the decoding of `r1_k3_s11_e1_i32_o16_se0.25` | read the `stride` field. A decoded stride is the one-element list `[s]`, so its one entry is printed twice (`s11`); decoding then recovers the record | not executed | `BlockCodec.EncodeAsWrittenBreaksRoundTrip` | `BlockCodec.RoundTrip` |
