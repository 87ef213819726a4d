# contracts_lite in Dafny

A model of contracts_lite, a small C++ runtime-contracts library. The library
has these parts:

- **Status algebra.** A `ReturnStatus` pairs a comment with a boolean. Two
  incompatible versions combine statuses with `&&` and `||`.
- **Violation record.** A `ContractViolation` carries six fields and renders
  itself on one line.
- **Build-level gate.** The levels OFF, DEFAULT and AUDIT decide whether
  `DEFAULT_ENFORCE` and `AUDIT_ENFORCE` evaluate their check at all. A failed
  check is handed to the violation handler.
- **Interval checks.** Four open/closed range checks.
- **Value wrappers.** Real, NonnegativeReal, StrictlyPositiveReal, NonzeroReal,
  UnitReal, AcuteDegree, AcuteRadian, SizeBound and StrictlyPositiveOddInteger.
  Each constructor runs one check through the gate.
- **Flicker detector.** A sliding-window peak/valley detector.
- **Worked example.** The function `foo` with its pre- and postconditions.

The modules follow the headers:

| module | models |
|---|---|
| `Ieee` | float values as a finite real, either infinity, or NaN, with IEEE comparisons (every comparison with NaN is false) |
| `Text` | decimal rendering of integers, `gcc_7x_to_string_fix` |
| `Status` | `ReturnStatus` |
| `Operators` | the joining AND and OR operators of `operators.hpp` |
| `ContractTypes` | the always-concatenating AND and OR operators of `contract_types.hpp` |
| `Violation` | `ContractViolation`, its rendering, and a reader for the rendering |
| `Enforcement` | build level, `CONTRACT_COMMENT`, `CONTRACT_VIOLATION`, `ENFORCE_CONTRACT`, the gated macros, the two handlers, and the construct/assign pattern of the wrappers |
| `RangeChecks` | `in_range_*` |
| `RealTypes`, `Angles`, `IntegerTypes` | the value wrappers and `vector_below_capacity` |
| `Flicker` | `PeakIndex`, peak/valley magnitude, both searches, `ScalarFlicker` |
| `FlickerCases` | the flicker tests and a reference definition of the three-sample detector |
| `Example` | `in_input_set`, `postconditions::foo`, `example::foo` |

Modelling choices:

- **Compile-time flags become values.** The build level and the continuation
  mode are a `Config` value passed in. A check the gate does not evaluate
  yields `Skipped`. A failed check yields `Violated(record)`.
- **Constructors return a `Result`.** A wrapper constructor returns
  `Result<T, ContractViolation>`. Under OFF it stores any value.
- **Assignment keeps the old value on failure.** Assignment goes through the
  checked constructor, so `Assign` keeps the current value when the new one is
  rejected.
- **The handler is a value.** It returns the message that would be thrown, or
  the text written to `stderr` before termination.
- **Source locations are parameters.** `__FILE__`, `__LINE__` and `__func__`
  are passed in as a `CallSite`.
- **Float-to-text is a parameter.** `std::to_string` on floating values is
  `show: Float -> string`.

## Model

| member | source | states |
|---|---|---|
| Operators.JoinComments | include/contracts_lite/operators.hpp:98-107 | an empty comment on either side yields the other comment unchanged; two non-empty comments are joined as first, conjunction, second |
| Operators.JoinIdentity | include/contracts_lite/operators.hpp:98-107 | an empty comment on either side returns the other comment verbatim; the join is empty iff both comments are; two non-empty comments give `c1 + conjunction + c2` |
| Operators.JoinAssociative | include/contracts_lite/operators.hpp:98-107 | joining with one conjunction is associative |
| Operators.And | include/contracts_lite/operators.hpp:116-122 | the status of `a && b` is the conjunction of the two statuses; the comment is the two comments joined with `"; AND "`, skipping an empty one |
| Operators.Or | include/contracts_lite/operators.hpp:123-129 | the status of `a` OR `b` is the disjunction of the two statuses; the comment is the two comments joined with `"; OR "`, skipping an empty one |
| Operators.StatusMonoids | include/contracts_lite/operators.hpp:116-129 | AND and OR are associative on whole statuses; `("", true)` is a two-sided identity of AND and `("", false)` of OR |
| ContractTypes.And | include/contracts_lite/contract_types.hpp:76-80 | status is the conjunction; the comment is exactly the first comment, `"; AND "`, then the second, even when one is empty |
| ContractTypes.Or | include/contracts_lite/contract_types.hpp:81-85 | status is the disjunction; the comment is exactly the first comment, `"; OR "`, then the second, even when one is empty |
| ContractTypes.AgreesWithOperators | include/contracts_lite/contract_types.hpp:76-85 | both algebras give the same status; their results are equal exactly when both comments are non-empty |
| ContractTypes.NoIdentity | include/contracts_lite/contract_types.hpp:76-85 | unlike the joining version, no status is an identity of AND or OR on either side |
| ContractTypes.Associative | include/contracts_lite/contract_types.hpp:76-85 | both operators are associative |
| Violation.Render | contracts_lite/include/contracts_lite/contract_violation.hpp:43-58 | the rendering opens with `{` and closes with `}`, and is exactly 118 characters of keys and punctuation longer than the six values it carries; `RenderRoundTrip` reads the six fields back from it |
| Violation.RenderIsRecordOfFields | contracts_lite/include/contracts_lite/contract_violation.hpp:43-58 | the rendering is `{`, then `key: "value"` entries for comment, function_name, file_name, line_number, assertion_level, violation_continuation_mode in that order separated by `", "`, then `}`; `string()` is that same rendering |
| Violation.PiecesAreEntryBoundaries | include/contracts_lite/operators.hpp:141-149 | each literal piece of the stream operator is exactly the boundary between two `key: "value"` entries |
| Violation.RenderFrame | include/contracts_lite/contract_types.hpp:97-105 | the rendering starts with `{comment: "` followed by the comment, and ends with `"}` |
| Violation.RenderRoundTrip | include/contracts_lite/operators.hpp:132-167 | a record with no `"` in its text fields is read back field for field from its rendering, so the constructor stores all six fields unchanged and the rendering loses none |
| Text.NatToString | include/contracts_lite/types/scalar_flicker.hpp:92-94 | `std::to_string` of an index is a non-empty string of decimal digits with no leading zero, and "0" for zero; `ParseNatToString` reads the number back |
| Text.IntToString | include/contracts_lite/types/strictly_positive_odd_integer.hpp:70-72 | `std::to_string` of an integer starts with `-` exactly when it is negative, and is the natural-number rendering otherwise |
| Text.ParseNatToString | include/contracts_lite/operators.hpp:145 | the decimal line number written by the stream operator reads back as the same number |
| Text.NatToStringInjective | include/contracts_lite/types/scalar_flicker.hpp:91-95 | different indices render differently |
| Text.FixedToString | contracts_lite/include/contracts_lite/to_string.hpp:27-36 | NaN renders as "nan", both infinities as "inf", and finite values as `std::to_string` does |
| Enforcement.LevelFromFlags | contracts_lite/include/contracts_lite/enforcement.hpp:44-50 | the OFF flag wins over the AUDIT flag; with neither the level is DEFAULT |
| Enforcement.LevelName | contracts_lite/include/contracts_lite/enforcement.hpp:44-50 | the `CONTRACT_BUILD_LEVEL` string of a level reads back as that level |
| Enforcement.ModeName | contracts_lite/include/contracts_lite/enforcement.hpp:34-38 | the `CONTRACT_VIOLATION_CONTINUATION_MODE` string of a mode reads back as that mode |
| Enforcement.NamesRoundTrip | contracts_lite/include/contracts_lite/enforcement.hpp:34-50 | the level strings "OFF"/"AUDIT"/"DEFAULT" and mode strings "ON"/"OFF" identify the level and mode they name |
| Enforcement.ContractComment | include/contracts_lite/operators.hpp:32-38 | `CONTRACT_COMMENT` is empty under OFF, the audit comment under AUDIT, and the default comment under DEFAULT |
| Enforcement.Enforced | contracts_lite/include/contracts_lite/enforcement.hpp:80-89 | a tier is enforced exactly when the level reaches the tier's threshold: the default tier from DEFAULT up, the audit tier only at AUDIT |
| Enforcement.GateIsMonotone | contracts_lite/include/contracts_lite/enforcement.hpp:80-89 | OFF enforces nothing, DEFAULT only the default tier, AUDIT both; the enforced set grows from OFF to DEFAULT to AUDIT; with distinct comments, `CONTRACT_COMMENT` picks the audit one exactly when audit checks are enforced |
| Enforcement.MakeViolation | contracts_lite/include/contracts_lite/enforcement.hpp:59-64 | the record carries the comment, file and function of the call site, the line, and the build-level and mode strings of the configuration |
| Enforcement.EnforceContract | contracts_lite/include/contracts_lite/enforcement.hpp:70-77 | a violation is raised iff the status is false, with the check's comment and the build level (not the tier) |
| Enforcement.Enforce | contracts_lite/include/contracts_lite/enforcement.hpp:80-89 | a check is skipped iff its tier is not enforced at the build level; when evaluated it fails iff its status is false |
| Enforcement.DefaultEnforce | contracts_lite/include/contracts_lite/enforcement.hpp:80-89 | `DEFAULT_ENFORCE` is skipped exactly under OFF |
| Enforcement.AuditEnforce | contracts_lite/include/contracts_lite/enforcement.hpp:80-89 | `AUDIT_ENFORCE` is skipped at every level except AUDIT |
| Enforcement.GatedChecksAgreeAcrossLevels | contracts_lite/include/contracts_lite/enforcement.hpp:80-89 | where a check is skipped its argument makes no difference; a check that stops the program at one level stops it at every higher level |
| Enforcement.MessageReadsBack | include/contracts_lite/simple_violation_handler.hpp:36-39 | the prefixed message of the throwing handler reads back as the violation it reports |
| Enforcement.Handle | include/contracts_lite/simple_violation_handler.hpp:36-60 | mode ON throws and mode OFF terminates; both messages carry the prefix and the rendered violation, which read back as that violation; the written text ends in a newline |
| Enforcement.Construct | include/contracts_lite/types/real.hpp:51-55 | a checked constructor yields its value iff the gated check lets the program continue; otherwise it yields a violation carrying the check's comment |
| Enforcement.Assign | include/contracts_lite/types/acute_degree.hpp:124-128 | assignment through a checked temporary takes the new value on success and keeps the current one on failure |
| RangeChecks.InRangeOpenOpen | include/contracts_lite/range_checks.hpp:30-37 | true iff min < v < max (false when any operand is NaN); comment `s(v) must be inside the range (s(min), s(max))` |
| RangeChecks.InRangeClosedOpen | include/contracts_lite/range_checks.hpp:44-51 | true iff min <= v < max; brackets `[` `)` |
| RangeChecks.InRangeOpenClosed | include/contracts_lite/range_checks.hpp:58-65 | true iff min < v <= max; brackets `(` `]` |
| RangeChecks.InRangeClosedClosed | include/contracts_lite/range_checks.hpp:72-80 | true iff min <= v <= max; brackets `[` `]` |
| RangeChecks.InRangeClosedClosedSize | include/contracts_lite/types/size_bound.hpp:49-52 | the `size_t` instance: true iff min <= v <= max, with the values rendered in decimal |
| RangeChecks.InfinityOutsideFiniteBounds | test/test_range_checks.cpp:59-66 | +inf fails all four checks when max is finite, and -inf fails all four when min is finite |
| RangeChecks.BoundsPassOnlyWhenClosed | test/test_range_checks.cpp:51-58 | min passes only with a closed lower bound, and max only with a closed upper bound |
| RangeChecks.Containment | include/contracts_lite/range_checks.hpp:30-80 | open-open implies closed-open and open-closed, and each of those implies closed-closed |
| RangeChecks.InfiniteBounds | include/contracts_lite/types/nonnegative_real.hpp:54-57 | infinite bounds make a range check a finiteness test, plus a one-sided test against the finite bound |
| RangeChecks.SizeCheckAgrees | include/contracts_lite/types/size_bound.hpp:49-52 | the size instance has the status of the generic closed-closed check on the same numbers |
| RangeChecks.RangeTestCases | test/test_range_checks.cpp:30-67 | with bounds -1 and 1: 0, 0.5 and -0.5 pass every check; 10, -10, NaN and +inf fail every check; each endpoint passes exactly the checks closed on its side |
| RealTypes.RealCheck | include/contracts_lite/types/real.hpp:51-55 | passes iff the value is finite |
| RealTypes.NonnegativeRealCheck | include/contracts_lite/types/nonnegative_real.hpp:54-57 | passes iff the value is finite and >= 0 |
| RealTypes.StrictlyPositiveRealCheck | include/contracts_lite/types/strictly_positive_real.hpp:55-58 | passes iff the value is finite and > 0 |
| RealTypes.NonzeroAlgebrasAgree | include/contracts_lite/types/nonzero_real.hpp:55-63 | the non-zero check gives the same status and comment whether `||` joins the comments or concatenates them |
| RealTypes.NonzeroRealCheck | include/contracts_lite/types/nonzero_real.hpp:55-63 | passes iff the value is finite and not 0; both range checks are computed and combined with `"; OR "` |
| RealTypes.UnitRealCheck | include/contracts_lite/types/unit_real.hpp:55-59 | passes iff 0 <= v <= 1 |
| RealTypes.MakeReal | include/contracts_lite/types/real.hpp:51-55 | succeeds iff the build is OFF or the value is valid; stores the value unchanged; a failure carries the check's comment |
| RealTypes.MakeNonnegativeReal | include/contracts_lite/types/nonnegative_real.hpp:54-57 | as above for [0, inf) |
| RealTypes.MakeStrictlyPositiveReal | include/contracts_lite/types/strictly_positive_real.hpp:55-58 | as above for (0, inf) |
| RealTypes.MakeNonzeroReal | include/contracts_lite/types/nonzero_real.hpp:55-63 | as above for (-inf, 0) or (0, inf) |
| RealTypes.MakeUnitReal | include/contracts_lite/types/unit_real.hpp:55-59 | as above for [0, 1] |
| RealTypes.AssignmentKeepsValidity | test/test_real.cpp:33-50 | in a checking build, assigning any value to a valid wrapper leaves it valid: an invalid value is rejected and the old value kept |
| RealTypes.ValidityHierarchy | include/contracts_lite/types/nonzero_real.hpp:55-63 | strictly positive implies non-negative and non-zero; unit implies non-negative; non-zero iff the value or its negation is strictly positive |
| RealTypes.RealTestCases | test/test_real.cpp:28-62 | NaN and both infinities are rejected, also as `r + inf`; 0, 1 and 2 are accepted |
| RealTypes.UnitRealTestCases | test/test_unit_real.cpp:27-73 | -1, NaN and both infinities are rejected; 0, 1, 0.13 and 0.99 are accepted; the assignment sequence of the test |
| RealTypes.NonzeroAndPositiveTestCases | test/test_nonzero_real.cpp:31-66 | 0, NaN and -inf are rejected as non-zero values; 1, -1 and `-1 + 2` are accepted; the strictly-positive and non-negative expectations |
| RealTypes.OffStoresAnything | contracts_lite/include/contracts_lite/enforcement.hpp:80-82 | under OFF every wrapper stores any value, even NaN |
| Angles.RadianToDegree | include/contracts_lite/types/acute_degree.hpp:95-99 | the result is finite iff the input is, and `d * pi == r * 180` |
| Angles.DegreeToRadian | include/contracts_lite/types/acute_radian.hpp:95-99 | the result is finite iff the input is, and `r * 180 == d * pi` |
| Angles.ConversionsRoundTrip | test/test_dimensional_analysis.cpp:29-46 | with exact arithmetic, each conversion undoes the other |
| Angles.DegreeToRadianKeepsValidity | include/contracts_lite/types/acute_radian.hpp:95-99 | a degree value is acute iff its conversion to radians is acute |
| Angles.RadianToDegreeKeepsValidity | include/contracts_lite/types/acute_degree.hpp:95-99 | a radian value is acute iff its conversion to degrees is acute |
| Angles.ConversionsKeepValidity | include/contracts_lite/types/acute_radian.hpp:110-112 | an angle is acute in degrees iff its conversion is acute in radians, in both directions |
| Angles.DegreeCheck | include/contracts_lite/types/acute_degree.hpp:132-136 | passes iff 0 <= v < 90 |
| Angles.RadianCheck | include/contracts_lite/types/acute_radian.hpp:132-136 | passes iff 0 <= v < pi/2 |
| Angles.MakeAcuteDegree | include/contracts_lite/types/acute_degree.hpp:132-136 | succeeds iff OFF or acute; stores the value; a failure carries the range comment |
| Angles.MakeAcuteRadian | include/contracts_lite/types/acute_radian.hpp:132-136 | succeeds iff OFF or acute; stores the value; a failure carries the range comment |
| Angles.DegreeFromRadian | include/contracts_lite/types/acute_degree.hpp:110-112 | converting a radian object succeeds iff OFF or the radian value is acute, and the stored degrees convert back to it |
| Angles.RadianFromDegree | include/contracts_lite/types/acute_radian.hpp:110-112 | converting a degree object succeeds iff OFF or the degree value is acute, and the stored radians convert back to it |
| Angles.AssignDegreeFromRadian | include/contracts_lite/types/acute_degree.hpp:116-120 | in a checking build a valid object stays valid; on success it holds the conversion; on failure it keeps its value |
| Angles.AssignRadianFromDegree | include/contracts_lite/types/acute_radian.hpp:116-120 | the same for radian objects |
| Angles.DegreeTestCases | test/test_acute_degree.cpp:27-42 | NaN and the infinities are rejected; 45 then 95 is rejected and keeps 45; 45 then 15 is accepted |
| Angles.RadianTestCases | test/test_acute_radian.cpp:29-44 | NaN, +inf and -inf are rejected as radians; 1.0 is accepted; 1.0 then 2.0 is rejected; 1.0 then 0.75 is accepted |
| Angles.QuarterTurn | test/test_dimensional_analysis.cpp:29-46 | 45 degrees is pi/4 radians and back, exactly |
| IntegerTypes.SizeBoundCheck | include/contracts_lite/types/size_bound.hpp:49-52 | passes iff the value is at most the bound |
| IntegerTypes.MakeSizeBound | include/contracts_lite/types/size_bound.hpp:49-52 | succeeds iff OFF or r <= BOUND; stores the value |
| IntegerTypes.SizeBoundEnds | include/contracts_lite/types/size_bound.hpp:49-52 | 0 and BOUND are accepted and BOUND + 1 is rejected |
| IntegerTypes.SizeBoundTestCases | test/test_size_bound.cpp:24-37 | with BOUND 10, 11 is rejected, assigning 15 keeps the old value, and assigning 5 is accepted |
| IntegerTypes.LowBit | include/contracts_lite/types/strictly_positive_odd_integer.hpp:67-76 | `r & 1` is 0 or 1 and has the parity of r, also for negative r |
| IntegerTypes.OddCheck | include/contracts_lite/types/strictly_positive_odd_integer.hpp:67-76 | passes iff r > 0 and r is odd; the comment is empty unless the build is AUDIT |
| IntegerTypes.MakeStrictlyPositiveOddInteger | include/contracts_lite/types/strictly_positive_odd_integer.hpp:67-76 | succeeds iff OFF or r is positive and odd; stores r |
| IntegerTypes.OddCheckRejects | include/contracts_lite/types/strictly_positive_odd_integer.hpp:67-76 | negative odd numbers have the low bit set but fail the sign test; even numbers fail; validity is kept by adding 2 |
| IntegerTypes.OddIntegerTestCases | test/test_strictly_positive_odd_integer.cpp:34-53 | 2 is rejected, also by assignment after 1; assigning 5 after 1 is accepted |
| IntegerTypes.VectorBelowCapacity | include/contracts_lite/types/assertions.hpp:30-38 | true iff size < capacity, strictly; the comment names both numbers under AUDIT and is empty otherwise |
| IntegerTypes.VectorTestCases | test/test_assertions.cpp:25-42 | with capacity 2, sizes 0 and 1 pass and 2 fails |
| Flicker.Ordered | include/contracts_lite/types/scalar_flicker.hpp:99-104 | an ordered index triple spans at least three positions (p1 + 2 <= p3); `MakePeakIndex` enforces exactly this order |
| Flicker.MakePeakIndex | include/contracts_lite/types/scalar_flicker.hpp:74-87 | succeeds iff OFF or p1 < p2 < p3, with no upper bound; the comment is the ordering message under AUDIT and empty otherwise |
| Flicker.PeakIndexTestCases | test/test_scalar_flicker.cpp:15-41 | the rejected and accepted index triples of the test, and `is_valid_for_array` on a three-element array |
| Flicker.PeakString | include/contracts_lite/types/scalar_flicker.hpp:91-95 | the string is at least 9 characters, opens with `[` and closes with `]`; `PeakStringRoundTrip` reads the three indices back |
| Flicker.PeakStringRoundTrip | include/contracts_lite/types/scalar_flicker.hpp:91-95 | `"[p1, p2, p3]"` reads back as the same index triple |
| Flicker.IsValidForArray | include/contracts_lite/types/scalar_flicker.hpp:109-115 | for an ordered triple the three bounds checks reduce to p3 < size |
| Flicker.IsPeak | include/contracts_lite/types/scalar_flicker.hpp:126-131 | a peak's middle value differs from both neighbours; `MagnitudeIsNearerDistance` shows no triple is both a peak and a valley |
| Flicker.IsValley | include/contracts_lite/types/scalar_flicker.hpp:139-144 | a triple is a valley exactly when its negation is a peak |
| Flicker.PeakMag | include/contracts_lite/types/scalar_flicker.hpp:151-154 | at most the rise from each neighbour to the middle, and positive exactly for a peak; `MagnitudeIsNearerDistance` gives its value as the distance to the nearer neighbour |
| Flicker.ValleyMag | include/contracts_lite/types/scalar_flicker.hpp:161-164 | at most the drop from each neighbour to the middle, and positive exactly for a valley |
| Flicker.GetPeakMagnitude | include/contracts_lite/types/scalar_flicker.hpp:171-191 | never negative, and positive exactly when the indexed triple is a peak or a valley |
| Flicker.TripleMagnitude | include/contracts_lite/types/scalar_flicker.hpp:171-191 | the magnitude is >= 0, and > 0 iff the triple is a peak or a valley |
| Flicker.MagnitudeIsNearerDistance | include/contracts_lite/types/scalar_flicker.hpp:126-164 | a triple is never both a peak and a valley; a flat side rules out both; the magnitude is the distance from the middle to the nearer outer value when it is a peak or valley, and 0 otherwise; it is the same under reversal and negation |
| Flicker.PeakValleyTestCases | test/test_scalar_flicker.cpp:45-121 | the peak, valley, `peak_mag` and `valley_mag` expectations of the test |
| Flicker.RotateLeftAndSetBack | include/contracts_lite/types/scalar_flicker.hpp:196-201 | length unchanged, `new[i] == old[i + 1]` below the last slot, and the last slot holds the new value |
| Flicker.WindowKeepsLatestSamples | include/contracts_lite/types/scalar_flicker.hpp:196-201 | after pushing any samples the window holds the last S values of the old window followed by the samples |
| Flicker.ScanMiddles | include/contracts_lite/types/scalar_flicker.hpp:219-226 | the loop over middle indices ends with a triple that dominates every middle and is the first of greatest magnitude |
| Flicker.GreatestMagnitudePeakIn | include/contracts_lite/types/scalar_flicker.hpp:208-228 | returns `(begin, k, end - 1)` whose magnitude is >= that of every `(begin, j, end - 1)`, and the earliest such; `(begin, begin + 1, end - 1)` when all magnitudes are 0 |
| Flicker.RangeIsMaximum | include/contracts_lite/types/scalar_flicker.hpp:208-228 | the magnitude found by the range search is the largest magnitude among the triples `(begin, j, last)` of the range `[begin, last + 1)` |
| Flicker.ShortRangeRejected | include/contracts_lite/types/scalar_flicker.hpp:213-218 | with a range shorter than three, the initial index triple fails the ordering check in every checking build |
| Flicker.ScanWindow | include/contracts_lite/types/scalar_flicker.hpp:244-257 | the two nested loops end with an ordered in-bounds triple that dominates every triple i < j < k |
| Flicker.GreatestMagnitudePeak | include/contracts_lite/types/scalar_flicker.hpp:234-259 | an ordered, in-bounds triple whose magnitude is >= that of every triple i < j < k of the window |
| Flicker.GreatestIsMaximum | include/contracts_lite/types/scalar_flicker.hpp:234-259 | the magnitude found by the whole-window search is the largest magnitude of any triple |
| Flicker.MakeScalarFlicker | include/contracts_lite/types/scalar_flicker.hpp:283-294 | succeeds iff OFF or the limit is > 0; the name is stored as `"[" + name + "]: "`; the window is S zeros; the failure comment names the limit |
| Flicker.MakeDefaultScalarFlicker | include/contracts_lite/types/scalar_flicker.hpp:298-300 | the same check, with the name "[Flicker]: " |
| Flicker.NoFlicker | include/contracts_lite/types/scalar_flicker.hpp:304-315 | shifts the sample into the window, changing nothing else, and passes iff every triple of the new window is below the limit; the comment is empty unless AUDIT |
| Flicker.NoFlickerAll | include/contracts_lite/types/scalar_flicker.hpp:304-315 | feeding samples one by one gives one verdict per sample, and the n-th verdict passes exactly when every triple of the window after pushing the first n + 1 samples is below the limit |
| Flicker.VerdictJudgesLatestSamples | include/contracts_lite/types/scalar_flicker.hpp:304-315 | the n-th verdict judges the old window followed by the first n + 1 samples, cut to the window's length; once the stream has filled the window, it judges exactly the latest S samples |
| FlickerCases.ThreeSampleDetector | include/contracts_lite/types/scalar_flicker.hpp:304-315 | with a window of three, the detector's verdicts equal the reference verdicts computed triple by triple on the raw samples |
| FlickerCases.SampleWholeWindow | test/test_scalar_flicker.cpp:136-144 | the whole-window search on the nine-sample array reaches magnitude 6 |
| FlickerCases.SampleRangeWhole | test/test_scalar_flicker.cpp:146-152 | the range search over [0, 9) reaches 3.5 |
| FlickerCases.SampleRangeFront | test/test_scalar_flicker.cpp:154-160 | the range search over [0, 3) reaches 2.5 |
| FlickerCases.SampleRangeBack | test/test_scalar_flicker.cpp:162-168 | the range search over [6, 9) reaches 0 |
| FlickerCases.DefaultDetector | test/test_scalar_flicker.cpp:173-175 | `ScalarFlicker<real, 3>(0.5)` is a detector named "[Flicker]: " over three zeros |
| FlickerCases.RisingAndFalling | test/test_scalar_flicker.cpp:173-184 | pushing 0, 1, 2, 1, 0, -1, 0 reports flicker exactly on the fourth and seventh pushes |
| Example.AnyEqual | contracts_lite_test/include/example/contract.hpp:51-52 | `any_of` with `==` finds x iff x is finite and listed, so NaN is never a member |
| Example.InInputSet | contracts_lite_test/include/example/contract.hpp:43-58 | true iff bar is one of -5, 0, 0.5, 1, 2.3, 5; the comment names bar and the input set |
| Example.InOutputSet | contracts_lite_test/include/example/contract.hpp:65-77 | true iff bar is one of 0, 1, 5; the comment names bar and the output set |
| Example.Foo | contracts_lite_test/include/contracts_lite_test/simple.hpp:54-80 | in a checking build a successful call returns its input; only a checking build can fail |
| Example.FooFailsAtFirstFailure | contracts_lite_test/include/contracts_lite_test/simple.hpp:54-80 | at DEFAULT and AUDIT, `foo` fails iff some check fails by the contract's reading, and the violation comes from the first failing check's location and carries the build level |
| Example.FooAtAudit | contracts_lite_test/test/test_contracts_example_build_level_AUDIT.cpp:22-42 | at AUDIT exactly the input 5 gets through |
| Example.FooAtDefault | contracts_lite_example/test/test_contracts_example_build_level_DEFAULT_OFF.cpp:27-57 | at DEFAULT exactly the inputs 0 and 5 get through |
| Example.FooAtOff | contracts_lite_test/include/contracts_lite_test/simple.hpp:59-79 | at OFF every input gets through: 1 and -5 come back as NaN, everything else unchanged |
| Example.FooAuditTestCases | contracts_lite_test/test/test_contracts_example_build_level_AUDIT.cpp:22-42 | 5 passes, while 10, 2.3, -5, 0 and 0.5 are stopped |
| Example.FooDefaultTestCases | contracts_lite_example/test/test_contracts_example_build_level_DEFAULT_OFF.cpp:27-57 | 5 and 0 pass, while 10, 2.3, -5 and 0.5 are stopped |

## Left out

- **Floating point.**
  - The value wrappers, range checks and angles work on exact reals together with IEEE infinities and NaN. Rounding, overflow and `-0.0` are not modelled; `-0.0` is `Fin(0)`.
  - The flicker detector's samples and magnitude limit are plain finite reals. The detector's documented precondition (include/contracts_lite/types/scalar_flicker.hpp:122) asks for real-valued, finite values. Three behaviours outside it are therefore not modelled: a NaN limit fails the positivity check, a +inf limit passes it, and a NaN sample makes no triple containing it a peak or a valley.
  - The test tolerances (the 1e-4 comparisons) are not modelled.
  - `M_PI` is an unknown constant between 3.14159 and 3.14160, so the conversion ratios are exact.
- **Float rendering.** `std::to_string` of a finite float is the `show` parameter. The program's own integer rendering (`std::to_string` of indices and integers, and the streamed line number) is modelled as decimal.
- **Handler effects.**
  - `std::terminate`, writing to `std::cerr` and throwing are results of `Enforcement.Handle`. Nothing after a violation is modelled as running.
  - The older handler header at contracts_lite/include/contracts_lite/simple_violation_handler.hpp writes the prefix "CONTRACT VIOLATION!: ". Only the "CONTRACT VIOLATION: " handler is modelled.
- **Source-location capture.**
  - `__FILE__`, `__LINE__` and `__func__` are the `CallSite` parameter.
  - Enforcement.MakeViolation: states the stored line number only for lines below 2^32. The body reduces a larger line modulo 2^32, as the `static_cast<uint_least32_t>` does, but the contract does not state that case.
- **Lazy evaluation.** The gated macros do not evaluate their argument under a level that skips them. This is modelled as the `Skipped` outcome together with `GatedChecksAgreeAcrossLevels`. Side effects of a skipped argument are not modelled.
- **`operator bool` and conversions to `T`.** `operator bool` is the `status` field. Each wrapper's conversion operator is its `value` field. Deleted default constructors show up as the absence of a default value.
- **C++ object mechanics.** Move and copy semantics are not modelled, including the comment-stealing copy constructor of `ReturnStatus`. Stream operators are not modelled except as the renderings above.
- **failure_status.hpp** is a record with no behaviour.
- **`operator+` on `ReturnStatus`.** The status test exercises it, but no header defines it.
- **`build` and `new_peak_magnitude`.** They are declared in scalar_flicker.hpp but not defined there.
- **`size_t` wrap-around in the range search.** `greatest_magnitude_peak(arr, begin, end)` computes `end - 1`, which wraps for `end == 0`. The model requires `begin + 3 <= end <= S`; every call from the whole-window search meets this, and `ShortRangeRejected` shows that shorter ranges make the first `PeakIndex` fail its check.
- Flicker.GreatestMagnitudePeak: does not state which of several equally large triples the whole-window search returns. Only domination is stated, which is what the detector needs.
- Example.Foo: its own contract states only that a checking build returns the input unchanged. The exact verdict per input and level is in `FooFailsAtFirstFailure`, `FooAtAudit`, `FooAtDefault` and `FooAtOff`.
- Violation.RenderRoundTrip: requires text fields without `"`. A `"` inside a field makes the rendering ambiguous, and the library does not escape it.
- Enforcement.Handle: reads the message back only under the same quote-free condition, for the same reason.
- **Departures from the library's documentation.** The model follows the code in each case:
  - The input set of `in_input_set` has six values; its doc comment lists five.
  - `StrictlyPositiveOddInteger` has no configurable minimum.
  - The conjunctions are `"; AND "` and `"; OR "`.
- **Which status algebra `NonzeroReal` uses.** `operators.hpp` and `contract_types.hpp` share one include guard, so the header a translation unit includes first supplies `||`. On its own, `nonzero_real.hpp` reaches `contract_types.hpp` first through `range_checks.hpp`. test/test_nonzero_real.cpp:21-22 includes `simple_violation_handler.hpp` first, which brings in `operators.hpp` (include/contracts_lite/simple_violation_handler.hpp:28). `NonzeroRealCheck` is written with the concatenating `||`. Both range comments are non-empty, so the two algebras give the same status and the same comment (`RealTypes.NonzeroAlgebrasAgree`).
