# Fitness tracker core in Dafny

This project models the two input pipelines of a step-counter / fitness tracker, and the formulas they feed:

- **Training records** (`internal/spentcalories`). A record `<steps>,<activity>,<duration>` is split on commas. The step count and the duration are trimmed and parsed. The label is kept as it is. Distance is `height · 0.45 · steps / 1000` km. Mean speed is distance per hour. There is a running and a walking calorie formula, each behind the same ordered chain of guards. The training summary dispatches on the lower-cased label: `бег` is running, `ходьба` is walking.
- **Daily records** (`internal/daysteps`). A record `<steps>,<duration>` is split on commas but **not** trimmed, and both values must be positive. The daily summary reports the step count, the distance at a fixed 0.65 m step, and the walking calories. Any parse error gives an empty result.

Every operation is pure, so everything is a datatype, a function or a lemma. The modules follow the source and its library calls:

- `Wrappers`: `Option` and `Result`.
- `Ints`: Go's 64-bit `int`.
- `Strings`: `strings.Split` with a one-character separator, and `strings.TrimSpace`.
- `Strconv`: `strconv.Atoi`, and decimal rendering for round trips.
- `Time`: `time.Duration` as signed 64-bit nanoseconds, with `Hours()` and `Minutes()`.
- `SpentCalories` and `DaySteps`: the two core files.

Modelling choices:

- Go's `float64` is Dafny's `real`, so the formulas hold as exact identities.
- `time.ParseDuration` is a parameter of type `string -> Option<Duration>`. `strings.ToLower` is a parameter of type `string -> string`. Every property here holds for any duration parser and any lower-casing function.
- A calorie function returns a `(float64, error)` pair, which is the datatype `Calories(value, err)`. The callers use the value and drop the error.
- `TrainingInfo` is split into the parse step and `Summarize`, the code after parsing (spentcalories.go:69-109).

Some behaviour of the code that a reader might not expect:

- The daily parser in `daysteps.go` does not trim its fields. A leading space before the step count is a conversion error (`DaySteps.LeadingSpaceRejected`).
- The training parser does not reject a zero or negative duration (`SpentCalories.NonPositiveDurationParses`). Such a record reaches `Summarize`, where the speed is 0 and the calorie guards fail, so 0 calories are reported.
- Both calorie functions are evaluated before the label is examined. In a pure model this makes no difference.
- The recognised labels are the Russian words `бег` and `ходьба`, not `running` and `walking`.

## Model

| member | source | states |
|---|---|---|
| `Strings.Split` | internal/spentcalories/spentcalories.go:21-22 | the number of pieces is the number of commas plus one, and no piece contains a comma |
| `Strings.JoinOfSplit` | internal/spentcalories/spentcalories.go:21 | joining the pieces with commas gives the input back |
| `Strings.SplitOfJoin` | internal/daysteps/daysteps.go:21 | splitting comma-free pieces joined by commas gives the pieces back |
| `Strings.TrimSpace` | internal/spentcalories/spentcalories.go:26 | the result neither starts nor ends with a Unicode white-space character |
| `Strings.TrimSpaceRemovesPadding` | internal/spentcalories/spentcalories.go:35 | the input is the result with white space only before and after it |
| `Strings.TrimSpaceOfPadded` | internal/spentcalories/spentcalories.go:26 | trimming white space around an already trimmed string returns that string |
| `Strings.TrimSpaceIdempotent` | internal/spentcalories/spentcalories.go:35 | trimming twice is trimming once |
| `Strconv.Atoi` | internal/spentcalories/spentcalories.go:27 | on success the text starts with a sign or a digit (so leading white space is refused), ends with a digit, is negative only after a `-`, and the value fits in 64 bits |
| `Strconv.FormatNat` | internal/daysteps/daysteps.go:64 | `%d` of a natural number is a non-empty string of digits |
| `Strconv.FormatInt` | internal/daysteps/daysteps.go:64 | `%d` of an integer starts with `-` exactly for a negative number and is all digits otherwise |
| `Strconv.AtoiOfFormatInt` | internal/daysteps/daysteps.go:27 | Atoi reads back every 64-bit integer written in decimal |
| `Time.Quo` | internal/spentcalories/spentcalories.go:57 | Go's integer division truncates toward zero: the quotient times the divisor lies within one divisor of the dividend, on the side of zero |
| `Time.Hours` | internal/spentcalories/spentcalories.go:57 | whole hours plus the truncated-division remainder equal exactly nanoseconds / 3.6e12 |
| `Time.Minutes` | internal/spentcalories/spentcalories.go:129 | whole minutes plus the remainder equal exactly nanoseconds / 6e10 |
| `Time.MinutesPerHour` | internal/spentcalories/spentcalories.go:129-130 | minutes / 60 are the hours, and hours are positive exactly for a positive duration |
| `SpentCalories.ParseFields` | internal/spentcalories/spentcalories.go:26-41 | the errors in the order of the checks: a trimmed step field Atoi refuses, then a count ≤ 0, then a trimmed duration the parser refuses; success exactly when all three checks pass; on success steps > 0, the label is the raw field and the duration is the parser's value, of any sign |
| `SpentCalories.ParseTraining` | internal/spentcalories/spentcalories.go:20-24 | the field-count error, carrying the count of pieces, occurs exactly when the record does not contain exactly two commas; on success steps > 0 |
| `SpentCalories.ParseTrainingFields` | internal/spentcalories/spentcalories.go:20-41 | a record of three comma-free fields is judged by the field checks on those fields |
| `SpentCalories.ThreeFields` | internal/spentcalories/spentcalories.go:21-22 | every record with two commas is such a three-field record |
| `SpentCalories.FieldsTrimmed` | internal/spentcalories/spentcalories.go:26-36 | the field checks depend only on the trimmed step and duration fields |
| `SpentCalories.PaddingAroundNumbersIgnored` | internal/spentcalories/spentcalories.go:26-41 | white space around the step and duration fields leaves the parse result unchanged, padded label included |
| `SpentCalories.NonPositiveDurationParses` | internal/spentcalories/spentcalories.go:35-41 | a zero or negative duration is accepted and returned as it is |
| `SpentCalories.Distance` | internal/spentcalories/spentcalories.go:44-49 | the distance in metres (km × 1000) is the step length, 0.45 of the height, times the number of steps |
| `SpentCalories.DistanceLinear` | internal/spentcalories/spentcalories.go:44-49 | distance is 0 for 0 steps, additive in steps, and scales with an integer factor |
| `SpentCalories.DistanceSign` | internal/spentcalories/spentcalories.go:44-49 | non-negative steps and height give a non-negative distance; with positive steps its sign is the sign of the height |
| `SpentCalories.MeanSpeed` | internal/spentcalories/spentcalories.go:51-60 | 0 for a non-positive duration; otherwise speed × hours equals the distance |
| `SpentCalories.MeanSpeedSign` | internal/spentcalories/spentcalories.go:51-60 | speed ≥ 0 for non-negative steps and height; with positive steps and duration it is negative exactly when the height is |
| `SpentCalories.CaloriesCancel` | internal/spentcalories/spentcalories.go:129-130 | weight · speed · minutes / 60 is weight · distance, because minutes / 60 cancel the hours in the speed |
| `SpentCalories.RunningSpentCalories` | internal/spentcalories/spentcalories.go:112-133 | guards in order (steps < 0, weight ≤ 0, height ≤ 0, duration ≤ 0), each an error with value 0; success exactly when all pass; the negative-speed error never occurs; on success the value is weight · distance |
| `SpentCalories.WalkingSpentCalories` | internal/spentcalories/spentcalories.go:135-156 | the same guards in the same order with value 0 on error; on success the value is 0.5 · weight · distance |
| `SpentCalories.WalkingIsHalfRunning` | internal/spentcalories/spentcalories.go:152-154 | both functions give the same error on every input, and the walking value is always half the running value |
| `SpentCalories.Summarize` | internal/spentcalories/spentcalories.go:69-109 | speed error exactly when height < 0 and duration > 0; a label is unknown exactly when, lower-cased, it is neither `бег` nor `ходьба` and there is no speed error; success exactly when there is no speed error and the lower-cased label is `бег` or `ходьба`; on success it reports running exactly for `бег`, the duration in hours, the distance, the non-negative mean speed and the chosen calorie function's value |
| `SpentCalories.SummarizeCalories` | internal/spentcalories/spentcalories.go:76-104 | reported calories are 0 when weight, height or duration is not positive; otherwise weight · distance for running and half of that for walking |
| `SpentCalories.TrainingInfo` | internal/spentcalories/spentcalories.go:62-67 | a parse error is returned wrapped and unchanged (a record without exactly two commas gives the field-count error); any other outcome comes from a record that parsed |
| `SpentCalories.LabelCaseInsensitive` | internal/spentcalories/spentcalories.go:80-107 | two labels that lower-case alike give the same summary |
| `DaySteps.ParsePackageFields` | internal/daysteps/daysteps.go:27-46 | the errors in check order on the untrimmed fields: Atoi refuses the step field, count ≤ 0, the duration parser refuses, duration ≤ 0; success exactly when all four checks pass (so `+5` or `007` steps are accepted); on success steps > 0 and duration > 0 are the parsed values |
| `DaySteps.ParsePackage` | internal/daysteps/daysteps.go:20-25 | the field-count error occurs exactly when the record does not contain exactly one comma; on success steps > 0 and duration > 0 |
| `DaySteps.ParsePackageOfFields` | internal/daysteps/daysteps.go:20-46 | a record of two comma-free fields is judged by the field checks on those raw fields |
| `DaySteps.TwoFields` | internal/daysteps/daysteps.go:21-22 | every record with one comma is such a two-field record |
| `DaySteps.ParsePackageRoundTrip` | internal/daysteps/daysteps.go:20-46 | a positive step count written in decimal, a comma and the text of a positive duration parse back to exactly that pair |
| `DaySteps.LeadingSpaceRejected` | internal/daysteps/daysteps.go:27-31 | a white-space character before the step count is a step-conversion error |
| `DaySteps.DayActionInfo` | internal/daysteps/daysteps.go:49-67 | the empty result exactly when parsing fails; the non-positive-steps message is never returned; a report carries the parsed steps, distance · 1000 = 0.65 · steps, and the walking calorie value |
| `DaySteps.DayActionCalories` | internal/daysteps/daysteps.go:62 | reported calories are 0 when weight or height is not positive (the error is dropped), otherwise 0.5 · weight · height-based distance |
| `DaySteps.DayDistanceIgnoresBody` | internal/daysteps/daysteps.go:59-60 | the reported steps and distance do not depend on weight or height |

## Left out

- Text rendering with `fmt.Sprintf` and `%.2f` rounding (spentcalories.go:82-104, daysteps.go:64). The model returns the reported values, not the text.
- `log.Println` and `fmt.Println` diagnostics (spentcalories.go:65, daysteps.go:23-44 and 52). They have no effect on the results.
- The exact wording of the error messages. Error kinds are datatype constructors, and the field-count error keeps its count.
- IEEE-754 rounding of `float64`. All arithmetic is over exact reals. Exact reals also have no NaN or infinity. In Go a NaN weight or height passes the `weight <= 0` and `height <= 0` guards (spentcalories.go:116-121), because the comparison is false, and the calories come out NaN. An infinite input (an infinite height with 0 steps) can give NaN too.
- `time.ParseDuration` and `strings.ToLower`. Their code is library code that is not part of this model, so both are function parameters.
- `Strconv.Atoi`: treats its syntax and range errors as one failure. Go reports a range error as soon as the value overflows, even when an invalid character follows. The model does not distinguish the two kinds, and the parsers do not either.
- `Strings.Split`: handles a one-character separator only, which is all the source uses.
- The unused constant `lenStep` (spentcalories.go:13) and the import path of the calorie package (daysteps.go:10).
