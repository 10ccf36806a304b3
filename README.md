# Diamond-anvil Raman pressure fitting: configuration reader and fit residuals

This project models two sequential pieces of the Diamond-Raman pressure
modelling program in Dafny and proves properties of them.

- **The configuration reader** (`Settings` in settings.cpp, with the tables of
  settings.h). A configuration file goes through four stages:
  1. Cleaning: comments after `#`, all whitespace and empty lines are removed.
  2. Sectioning: `&NAME` opens a section and `/` hands the gathered lines to
     `process_section`.
  3. Per section: `KEY=VALUE` lines become a map, the section's table is picked,
     and every table key takes the user's value or its default. An unknown user
     key is reported afterwards.
  4. Validation: allowed-value membership comes first. Then `std::stoi` /
     `std::stof` conversion, the sign checks of the POSITIVE and NEGATIVE kinds,
     and the write to the record field the table entry names.

  Each stage is a Dafny function (`Clean`, `Scan`, `UserSettings`,
  `AssignEntries`, `Validate`, composed into `ProcessSectionSpec` and
  `ReadSettings`). The class `SettingsReader.Settings` carries out the stages
  imperatively, as the C++ does: an in-place cleaning loop, a section scanner,
  a per-key loop, and writes into the four records. Each of its methods is
  proved against those functions. C++ exceptions become `Failure`/`Fail`
  values of `SettingsError`.

- **The residual vector of the pressure fit** (`Fitting` in fitting.cpp), in
  module `FitCost`:
  - the weight array set up by the constructor;
  - the copy of the starting pressure profile;
  - `compute_cost_function`: M data residuals predicted − measured, then a
    sixth-power penalty for negative pressures at index M, and a squared
    penalty for steps where the pressure goes down at index M+1.

  Doubles are exact `real`s.

Files:
- wrappers.dfy: `Option`, `Result`, `Outcome`.
- strings.dfy (`Strings`): isspace, `find`, the ordering `std::map` keeps its
  string keys in, and models of `std::stoi` and `std::stof`.
- settings_schema.dfy (`SettingsSchema`): the setting kinds, records and tables.
- settings_reader.dfy (`SettingsReader`): the specification functions and the
  `Settings` class.
- settings_properties.dfy (`SettingsProperties`): lemmas about cleaning,
  sectioning, sections and validation.
- settings_tables.dfy (`SettingsTables`): facts about the four tables and
  their defaults.
- fitting.dfy (`FitCost`): the penalties, the residual vector and the `Fitting`
  class.

Modelling choices:
- **Section tables.** A `std::map<std::string, SettingInfo>` iterates in key
  order. Each table is a sequence of entries in that order, and `TablesSorted`
  proves it sorted.
- **Unknown keys.** The unknown-key error names the least unknown user key
  (`LeastKey`), which is the first one the C++ loop meets.
- **Target fields.** The `void*` target of a table entry is a `FieldId`.
  `Assign` writes through it and changes no other field.
- **Conversions.** `std::stoi` is modelled concretely: leading whitespace, a
  sign, the longest digit run, `invalid_argument` when there is no digit, and
  `out_of_range` outside 32-bit `int`. `std::stof` reads a decimal mantissa
  with an optional exponent, exactly, and reports `out_of_range` outside
  float's range.

Two behaviours of the code worth knowing:
- settings.cpp:76-86 recognises only the sections DIAMOND, RAMAN, LASER and
  GENERAL; any other name is refused as an unrecognised section.
- compute_cost_function (fitting.cpp:130-134) does not check the length of the
  measured spectrum; it reads its first M values. The model states this as the
  precondition `|measured| >= |predicted|`.

## Model

| member | source | states |
|---|---|---|
| Strings.FindFirst | settings.cpp:53 | `find_first_of`: the index of the first occurrence, or the length when there is none; no occurrence before it |
| Strings.IsSpace | settings.cpp:56 | definition: the six characters `::isspace` accepts in the "C" locale |
| Strings.RemoveSpaces | settings.cpp:56 | the result has no whitespace and is no longer than the input |
| Strings.RemoveSpacesKeeps | settings.cpp:56 | a character survives exactly when it occurs in the input and is not whitespace |
| Strings.RemoveSpacesAppend | settings.cpp:56 | removing whitespace distributes over concatenation, so the kept characters stay in order |
| Strings.RemoveSpacesNoSpace | settings.cpp:56 | text with no whitespace is unchanged |
| Strings.DigitPrefix | settings.cpp:123 | the longest digit prefix: a prefix, all digits, followed by a non-digit or the end |
| Strings.SkipSpaces | settings.cpp:123 | definition: the leading whitespace `std::stoi` and `std::stof` skip (facts about it in SettingsProperties.DigitFirst and MinusFirst) |
| Strings.SplitSign | settings.cpp:123 | definition: an optional leading `+` or `-`, and whether it was `-` |
| Strings.DecimalValue | settings.cpp:123 | definition: the number a run of decimal digits denotes (used by StoIReadsDigits, MagnitudeOfDigits) |
| Strings.LexLessIrreflexive | settings.cpp:88 | no key comes before itself in the `std::map` key order |
| Strings.LexLessTransitive | settings.cpp:88 | the `std::map` key order is transitive |
| Strings.LexLessTotal | settings.cpp:113 | any two different keys are ordered one way or the other |
| Strings.LexLessAsymmetric | settings.cpp:113 | the key order is asymmetric |
| Strings.StoI | settings.cpp:123 | `std::stoi`: a success lies in the 32-bit `int` range; `invalid_argument` exactly when no digit follows the whitespace and sign; a negative value needs a `-` |
| Strings.Scaled | settings.cpp:138 | a mantissa scaled by a power of ten is never negative |
| Strings.ExponentOf | settings.cpp:138 | definition: the optional `e`/`E` exponent strtod reads after the mantissa, 0 when none is consumed |
| Strings.Magnitude | settings.cpp:138 | the unsigned number `std::stof` reads is never negative |
| Strings.StoF | settings.cpp:138 | `std::stof`: `invalid_argument` exactly when no magnitude can be read after the whitespace and sign, `out_of_range` when it overflows a float or is non-zero and below FLT_MIN; a success lies strictly inside float's range, is zero or at least FLT_MIN in size, and is negative only after a `-` |
| SettingsSchema.Read | settings.h:27-51 | a field's value has the field's C++ type |
| SettingsSchema.Assign | settings.cpp:124 | the write through the entry's pointer: the named field holds the value and every other field is unchanged |
| SettingsSchema.ConfigExtensional | settings.h:27-51 | the four records are determined by their fields |
| SettingsSchema.SchemaOf | settings.h:70-91 | every table entry's kind converts to its target field's type |
| SettingsReader.CleanLine | settings.cpp:53-56 | a cleaned line has no `#` and no whitespace; without a `#` it is the line minus its whitespace |
| SettingsReader.Clean | settings.cpp:49-65 | cleaning never adds lines |
| SettingsReader.IsSectionStart | settings.cpp:33 | definition: the line starts with `&` |
| SettingsReader.Scan | settings.cpp:29-46 | definition of the scanning loop's calls; its properties are ScanGathers, ScanSection, ScanRenameKeepsLines, ScanIgnoresUnfinished, ScanCallsPerEnd, StrayLinesJoinNextSection |
| SettingsReader.SplitKeyValue | settings.cpp:70-71 | with an `=`, the key has none and key `=` value rebuilds the line; without one, key and value are both the whole line (npos + 1 wraps to 0) |
| SettingsReader.UserSettings | settings.cpp:68-73 | the map's keys are exactly the keys of the section's lines |
| SettingsReader.SchemaFor | settings.cpp:75-86 | a recognised section's table is well typed |
| SettingsReader.CheckAllowedValues | settings.cpp:158-164 | passes exactly when the allowed set is empty or holds the value; otherwise an invalid-value error naming the value |
| SettingsReader.Validate | settings.cpp:120-156 | allowed values are checked before conversion; the converted value has the kind's type; POSITIVE kinds never yield a value below 0 and NEGATIVE kinds never one above 0; TEXT succeeds exactly when allowed and keeps the string verbatim |
| SettingsReader.ValueFor | settings.cpp:100-106 | definition: the user's value when the key was given, else the default |
| SettingsReader.AssignEntries | settings.cpp:88-110 | definition of the table loop; its properties are AssignEntriesSucceeds, AssignEntriesWrites and AssignEntriesErrors |
| SettingsReader.LeastExists | settings.cpp:113-117 | every non-empty key set has a first key in map order |
| SettingsReader.LeastUnique | settings.cpp:113-117 | that first key is unique |
| SettingsReader.LeastKey | settings.cpp:113-117 | the first key, in map order, of a set of keys |
| SettingsReader.ProcessSectionSpec | settings.cpp:67-118 | definition of process_section on a configuration: table lookup, then ProcessWithSchema; proved to be what Settings.ProcessSection does |
| SettingsReader.ProcessWithSchema | settings.cpp:88-117 | definition: the table loop, then the unknown-key check (properties in InvalidKeyReportedLast) |
| SettingsReader.Run | settings.cpp:36-41 | definition: the section calls in order, the first failure stopping the rest |
| SettingsReader.ProcessInput | settings.cpp:25-47 | definition of process_input_file: `Run` over `Scan`; proved to be what Settings.ProcessInputFile does |
| SettingsReader.ReadSettings | settings.cpp:9-13 | definition of the constructor's pipeline: clean, then process; proved to be what Settings.Load does |
| SettingsReader.CleanFileContents | settings.cpp:49-65 | the in-place iterator loop leaves exactly `Clean` of the input |
| SettingsReader.StripLine | settings.cpp:53-56 | the scan for the first `#`, the cut there, and the in-place `remove_if`/`erase` compaction of the remaining characters leave exactly `CleanLine` of the line |
| SettingsReader.FindFirstOf | settings.cpp:53 | the loop stops at the first occurrence of the character (the length when there is none), the position `find_first_of` reports |
| SettingsReader.RemoveSpacesInPlace | settings.cpp:56 | compacting a buffer in place leaves its first `kept` characters equal to the buffer's old contents minus their whitespace, in order |
| SettingsReader.CompactStep | settings.cpp:56 | one turn of the compaction copies a non-space character to the write position and skips a space, keeping the kept prefix equal to the whitespace-free prefix read so far |
| SettingsReader.RemoveSpacesSnoc | settings.cpp:56 | removing whitespace from a prefix one character longer appends that character unless it is whitespace |
| SettingsReader.CleanAppend | settings.cpp:49-65 | cleaning works line by line: cleaning a concatenation concatenates the cleanings, so surviving lines keep their order |
| SettingsReader.CleanSingle | settings.cpp:58-62 | a single line disappears exactly when its cleaned form is empty, and otherwise is replaced by that form |
| SettingsReader.CleanAt | settings.cpp:50-64 | cleaning the lines from the iterator on is the line at the iterator, cleaned, followed by the later lines, cleaned |
| SettingsReader.EraseStep | settings.cpp:58-60 | erasing a line that cleans to nothing, without advancing the iterator, keeps the loop invariant: cleaned lines before the iterator, then `Clean` of the rest, is `Clean` of the input |
| SettingsReader.KeepStep | settings.cpp:53-62 | writing a line that keeps some text back in place and advancing past it keeps the same invariant |
| SettingsReader.BuildUserSettings | settings.cpp:68-73 | the map-filling loop builds exactly `UserSettings` |
| SettingsReader.FindInvalidKey | settings.cpp:112-117 | reports nothing exactly when every user key is in the table, and otherwise the least unknown key |
| SettingsReader.Settings.constructor | settings.h:53-58 | a fresh object's string fields are empty; its numeric fields are indeterminate |
| SettingsReader.Settings.Load | settings.cpp:9-13 | cleaning then processing the file's lines yields `ReadSettings`: on success the object holds exactly its configuration, on failure the same error |
| SettingsReader.Settings.ProcessInputFile | settings.cpp:25-47 | the scanning loop calls the sections `Scan` lists, in order, stopping at the first failure; the outcome and final state are those of `ProcessInput` |
| SettingsReader.Settings.ProcessSection | settings.cpp:67-118 | builds the user map, refuses an unknown section before assigning anything (the object is then unchanged), assigns every table key in table order, then reports an unknown user key; the result is `ProcessSectionSpec` |
| SettingsReader.Settings.ValidateAndAssign | settings.cpp:120-156 | a value that fails `Validate` leaves the object unchanged; one that passes is written to the entry's field and nowhere else |
| SettingsReader.Settings.Store | settings.cpp:124 | the typed pointer write changes exactly the named field |
| SettingsProperties.CleanWellFormed | settings.cpp:49-65 | after cleaning, no line is empty, holds a `#` or holds whitespace |
| SettingsProperties.CleanLineWithoutComment | settings.cpp:53-56 | a line without `#` keeps exactly its non-space characters |
| SettingsProperties.CleanLineOfCleanLine | settings.cpp:53-56 | a clean line is left unchanged |
| SettingsProperties.CleanIdempotent | settings.cpp:53-62 | cleaning cleaned lines changes nothing |
| SettingsProperties.ScanGathers | settings.cpp:43-45 | ordinary lines are gathered, in order, under the current section |
| SettingsProperties.ScanSection | settings.cpp:33-41 | `&NAME`, ordinary lines, `/`: exactly one section call with NAME and every line gathered since the last reset; then name and buffer are cleared |
| SettingsProperties.ScanRenameKeepsLines | settings.cpp:33-34 | a second `&` before `/` renames the section and keeps the lines gathered under the first name |
| SettingsProperties.ScanIgnoresUnfinished | settings.cpp:29-46 | lines after the last `/` produce no section call |
| SettingsProperties.ScanCallsPerEnd | settings.cpp:36-41 | there is exactly one section call per `/` line |
| SettingsProperties.OrphanLinesRejected | settings.cpp:26-41 | lines followed by a `/` before any `&` are processed under the empty name, which is refused as an unrecognised section |
| SettingsProperties.StrayLinesJoinNextSection | settings.cpp:33-45 | plain lines before an `&NAME` with no `/` in between (at the start, or after the previous `/`) are handed to NAME's section ahead of its own lines, because the `&` branch keeps the gathered lines |
| SettingsProperties.SplitKeyValueRoundTrip | settings.cpp:70-71 | a `KEY=VALUE` line whose key has no `=` splits back into that key and value |
| SettingsProperties.UserSettingsLastWins | settings.cpp:69-73 | for a repeated key the last line's value wins |
| SettingsProperties.SchemaForKnownSections | settings.cpp:76-86 | a table exists exactly for DIAMOND, RAMAN, LASER and GENERAL, and it is that record's table |
| SettingsProperties.AssignEntriesErrors | settings.cpp:88-110 | the table loop fails only on a missing required key, a refused value or a failed conversion |
| SettingsProperties.UnknownSectionRejected | settings.cpp:76-86 | a section is refused as unrecognised exactly when its name is none of the four |
| SettingsProperties.AssignEntriesSucceeds | settings.cpp:88-110 | the table loop succeeds exactly when every required key is given and every entry's value (the user's, else the default) validates |
| SettingsProperties.AssignEntriesWrites | settings.cpp:88-110 | after a successful loop over a table that names no field twice, each entry's field holds its validated value and every field no entry names is unchanged |
| SettingsProperties.DiamondRequiresDepth | settings.cpp:95-98 | a DIAMOND section without DEPTH fails with the required-setting error for DEPTH |
| SettingsProperties.InvalidKeyReportedLast | settings.cpp:112-117 | an unknown user key is reported exactly when every table key was assigned and the user gave a key the table lacks; the key reported is the least such; success exactly when all user keys are known, with the table loop's result |
| SettingsProperties.DigitPrefixOf | settings.cpp:123 | the digit prefix of digits followed by a non-digit is those digits |
| SettingsProperties.DigitPrefixWhole | settings.cpp:123 | the digit run `std::stoi` reads from plain digits is all of them |
| SettingsProperties.DigitFirst | settings.cpp:123 | text starting with a digit has no whitespace or sign to skip |
| SettingsProperties.StoIReadsDigits | settings.cpp:123 | `std::stoi` of digits within the `int` range, then a non-digit, is their value |
| SettingsProperties.MagnitudeOfDigits | settings.cpp:138 | the unsigned number read from plain digits, with no point or exponent, is their decimal value |
| SettingsProperties.DigitsInFloatRange | settings.cpp:138 | a digit string whose value is below the overflow threshold is neither too large nor too small for a float |
| SettingsProperties.StoFOfDigits | settings.cpp:138 | `std::stof` of plain digits that do not overflow a float is the number they denote |
| SettingsProperties.MinusFirst | settings.cpp:123 | a `-` followed by digits has no whitespace to skip and reads as negative with those digits |
| SettingsProperties.StoIOfNegated | settings.cpp:126-128 | `std::stoi` of `-` and digits within the `int` range is minus their value |
| SettingsProperties.StoFOfNegated | settings.cpp:141-144 | `std::stof` of `-` and digits that do not overflow a float is minus their value |
| SettingsProperties.FloatOverflowRefused | settings.cpp:138 | plain digits too large for a float make `std::stof` throw `out_of_range`, and a floating setting given them fails with that conversion error |
| SettingsProperties.SignRule | settings.cpp:121-151 | with no allowed values, a numeric setting is accepted exactly when it converts and has its kind's sign (zero has both) |
| SettingsProperties.PositiveKindsRefuseNegative | settings.cpp:125-145 | POSITIVE_INTEGER and POSITIVE_FLOAT refuse a negative number with an invalid-value error |
| SettingsProperties.NegativeKindsRefusePositive | settings.cpp:131-151 | NEGATIVE_INTEGER and NEGATIVE_FLOAT refuse a positive number with an invalid-value error |
| SettingsProperties.NumericKindsAcceptZero | settings.cpp:122-151 | every numeric kind accepts zero |
| SettingsTables.LexLessAt | settings.h:70-91 | strings equal up to a position and smaller there are ordered |
| SettingsTables.DiamondSortedAt | settings.h:70-75 | each DIAMOND key is smaller, in map order, than the next one |
| SettingsTables.RamanSortedAt | settings.h:76-80 | each RAMAN key is smaller than the next one |
| SettingsTables.GeneralSortedAt | settings.h:84-91 | each GENERAL key is smaller than the next one |
| SettingsTables.TablesSorted | settings.h:70-91 | each table lists its keys in the order the `std::map` visits them |
| SettingsTables.FieldHasEntry | settings.h:70-91 | every field of a record is the target of its table's entry at `EntryIndex` |
| SettingsTables.EntryHasField | settings.h:70-91 | every table entry targets a field of its own record, at that field's `EntryIndex` |
| SettingsTables.TablesCoverTheirRecord | settings.h:27-91 | each table writes only fields of its own record, never one field twice, and covers every field of the record |
| SettingsTables.DiamondKeys | settings.h:70-75 | the DIAMOND keys are exactly NELEM, DEPTH, INITIAL_PROFILE and TIP_PRESSURE |
| SettingsTables.OnlyDepthRequired | settings.h:71-90 | an entry is required exactly when it is DEPTH of DIAMOND |
| SettingsTables.OnlyInitialProfileRestricted | settings.h:73 | only INITIAL_PROFILE has allowed values, {LINEAR, QUADRATIC}, and its default is one of them |
| SettingsTables.NumericSettingsNonNegative | settings.h:71-90 | every numeric setting is POSITIVE_INTEGER or POSITIVE_FLOAT; the rest are TEXT |
| SettingsTables.DefaultNumbers | settings.h:71-85 | the numeric default texts denote 0, 100, 1000 and 1500 |
| SettingsTables.WellFormedDefaultValidates | settings.cpp:120-156 | plain-digit numeric defaults and allowed text defaults validate to the listed values |
| SettingsTables.DiamondDefaultsWellFormed | settings.h:71-74 | the DIAMOND defaults are plain digits or allowed text with the listed values |
| SettingsTables.RamanDefaultsWellFormed | settings.h:77-79 | the RAMAN defaults have the listed values |
| SettingsTables.LaserDefaultsWellFormed | settings.h:82 | the LASER default has the listed value |
| SettingsTables.GeneralDefaultsWellFormed | settings.h:85-90 | the GENERAL defaults have the listed values |
| SettingsTables.TableDefaultsWellFormed | settings.h:71-90 | every default in the four tables is well formed |
| SettingsTables.DefaultsValidate | settings.h:71-90 | every default passes its entry's own checks and gives the listed value: NELEM=100, DEPTH=0, TIP_PRESSURE=0, INITIAL_PROFILE=LINEAR, NFREQ=1000, MAX_FREQ=1500, MIN_FREQ=1000, INTENSITY=100, MAX_ITER=100 and the five file names |
| SettingsTables.DefaultsOnly | settings.cpp:100-109 | a section with no lines and no required key succeeds and sets each entry's field to its default value, changing nothing else |
| SettingsTables.EmptySectionGivesDefaults | settings.h:76-91 | an empty RAMAN, LASER or GENERAL section sets every field of its record to the listed default and changes nothing else |
| SettingsTables.DepthLineSettings | settings.cpp:69-73 | the line `DEPTH=d` gives the map {DEPTH: d} |
| SettingsTables.DepthEntryValidates | settings.h:72 | a DEPTH given as plain digits that do not overflow a float validates to their value |
| SettingsTables.DepthOnlyEntries | settings.h:71-74 | with only DEPTH given, every DIAMOND entry passes: DEPTH with its digits, the rest with their defaults |
| SettingsTables.DiamondOtherEntry | settings.h:71-74 | the DIAMOND entries other than DEPTH are optional and their defaults validate |
| SettingsTables.DiamondDepthSucceeds | settings.cpp:88-110 | the DIAMOND table loop succeeds when the user gives only DEPTH, as plain digits that do not overflow a float |
| SettingsTables.DiamondDepthReads | settings.cpp:88-110 | after that loop DEPTH holds the digits' value and NELEM, TIP_PRESSURE and INITIAL_PROFILE hold their defaults |
| SettingsTables.DiamondDepthKeepsOthers | settings.cpp:88-110 | that loop changes no field outside the DIAMOND record |
| SettingsTables.DiamondOutcome | settings.h:27-32 | a configuration with those DIAMOND fields, whose other fields are unchanged, is the old one with just the DIAMOND record replaced |
| SettingsTables.DiamondDepthAssigned | settings.cpp:88-110 | the DIAMOND table loop with only DEPTH succeeds, and its result is the old configuration with the DIAMOND record (100, d, 0, LINEAR) |
| SettingsTables.DiamondWithDepth | settings.h:70-75 | a DIAMOND section giving only `DEPTH=d` sets depth to d's value, NELEM to 100, TIP_PRESSURE to 0 and INITIAL_PROFILE to LINEAR, and changes no other record |
| SettingsTables.FirstEntryFails | settings.cpp:88-110 | the table loop stops with the first entry's error when that entry fails validation |
| SettingsTables.DiamondDepthOverflow | settings.cpp:88-110 | a DIAMOND section whose DEPTH overflows a float fails with `out_of_range` from `std::stof` |
| FitCost.Pow | fitting.cpp:139 | `pow` of a positive base is positive |
| FitCost.SquarePositive | fitting.cpp:143 | the square of a non-zero step is its product with itself and positive |
| FitCost.NegativeTerm | fitting.cpp:138-140 | one pressure's negative penalty is non-negative, and zero exactly when the pressure is non-negative |
| FitCost.DecreaseTerm | fitting.cpp:141-144 | one step's decrease penalty is non-negative, and zero exactly when the step does not go down |
| FitCost.NegativePenalty | fitting.cpp:137-140 | the negative penalty is never negative |
| FitCost.DecreasePenalty | fitting.cpp:137-145 | the decrease penalty is never negative |
| FitCost.NegativePenaltyZeroIff | fitting.cpp:137-140 | the negative penalty is zero exactly when every pressure is non-negative |
| FitCost.DecreasePenaltyZeroIff | fitting.cpp:141-144 | the decrease penalty is zero exactly when the profile never goes down |
| FitCost.NonDecreasingOrdered | fitting.cpp:141-144 | a profile with no step down has every later pressure at least every earlier one |
| FitCost.SingleBackwardStep | fitting.cpp:141-144 | a profile whose only step down has size δ has decrease penalty δ² |
| FitCost.SingleNegativePressure | fitting.cpp:138-139 | a profile whose only negative pressure is −x has negative penalty x⁶ |
| FitCost.Residuals | fitting.cpp:130-151 | the residual vector has M + 2 entries (m_num_constraints = 2) |
| FitCost.ResidualsZeroIff | fitting.cpp:130-151 | every residual is zero exactly when the prediction equals the first M measurements and the profile is non-negative and never goes down |
| FitCost.AccumulatePenalties | fitting.cpp:136-145 | the accumulation loop computes exactly the two penalty sums |
| FitCost.ComputeCostFunction | fitting.cpp:113-154 | writes predicted − measured at 0..M−1, the negative penalty at M and the decrease penalty at M+1, changes only the output vector, and returns GSL_SUCCESS |
| FitCost.PenaltyWeightBalance | fitting.cpp:18-23 | each penalty weight equals the sum of all data weights |
| FitCost.WeightLayout | fitting.cpp:16-23 | definition: M + 2 weights, 1.0 for each data residual and M for each penalty |
| FitCost.Sum | fitting.cpp:18-23 | definition: the sum of a weight sequence (used by PenaltyWeightBalance and SumOfOnes) |
| FitCost.SumOfOnes | fitting.cpp:18-20 | M weights of 1.0 sum to M |
| FitCost.Fitting.constructor | fitting.cpp:15-23 | the starting profile is N zeros; the weights are M + 2 entries, 1.0 for each data residual and M for each penalty; the object invariant `Valid` holds |
| FitCost.Fitting.SetInitialPressures | fitting.cpp:51-55 | the starting profile becomes exactly the first N entries of the argument, which must have at least N; the weights are untouched and the object invariant is kept |

## Left out

- File reading (`read_input_file`, settings.cpp:15-23): the model takes the file as its sequence of lines.
- Strings.StoF: modelled on decimal text only. Hexadecimal floats, `inf` and `nan` are not modelled, and values are exact reals, not rounded to `float` and then `double`.
- Strings.StoF: `out_of_range` is modelled by thresholds on the exact value: overflow from halfway between FLT_MAX and 2^128 upwards (exact under round-to-nearest), underflow for any non-zero magnitude below FLT_MIN. glibc's strtof reports underflow only for an inexact tiny result, judged after rounding, so an exactly representable subnormal, or a value just below FLT_MIN that rounds up to it, is accepted by the C++ and refused by the model.
- SettingsReader.Settings.Load: on failure the model states only the error. It does not state the fields already assigned before the exception, because the C++ constructor is abandoned by the exception anyway.
- The raw `void*` aliasing of `SettingInfo::assignment_pointer` (settings.h:24) is replaced by the `FieldId` selector.
- Header declarations that disagree with settings.cpp (`clean_input_file`, `assign_values_to_structs`, non-const signatures at settings.h:60-67) are not modelled; the definitions in settings.cpp are followed.
- Spectrum synthesis (raman.cpp, diamond.cpp: exponentials, π, Lorentzians) is not part of this model. `ComputeCostFunction` takes the predicted spectrum and the measured intensities as inputs.
- FitCost.ComputeCostFunction: the penalty loop runs over the `pressures` vector; the source bounds it by the diamond's element count, which the solver keeps equal to that vector's length. Copying the pressures into the diamond's profile is not modelled.
- IEEE rounding in the penalties: over doubles, a tiny negative pressure's sixth power underflows to 0, so the zero-exactly-when results hold only over the reals.
- The GSL solver plumbing (workspace, `winit`, driver, Jacobian, covariance, chi-squared; fitting.cpp:9-13, 25-37, 57-71, 100-111), the destructor, `print_summary` and the empty `callback` are foreign library calls, memory release or console output.
- The comments at fitting.cpp:147 and 150 describe the two penalty entries the other way round; the model follows the code.
- FitCost.Fitting.constructor: counts are `nat`, so the negative sizes a C++ `int` could carry are not modelled.
- main.cpp, laser.cpp/laser.h and the Python plotting scripts are not part of this model.
