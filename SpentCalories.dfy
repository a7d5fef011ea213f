/**
 * internal/spentcalories: parsing of a training record
 * `<steps>,<activity>,<duration>`, the distance, speed and calorie
 * formulas, and the training summary built from them.
 */
module SpentCalories {
  import opened Wrappers
  import opened Ints
  import opened Time
  import Strings
  import Strconv

  const MInKm: real := 1000.0
  const MinInH: real := 60.0
  const StepLengthCoefficient: real := 0.45
  const WalkingCaloriesCoefficient: real := 0.5

  /** The activity labels, compared after lower-casing. */
  const RunningLabel: string := "бег"
  const WalkingLabel: string := "ходьба"

  datatype ParseError =
    | WrongFieldCount(got: nat)  // the record did not split into three fields
    | BadSteps                   // strconv.Atoi refused the trimmed step field
    | NonPositiveSteps
    | BadDuration                // time.ParseDuration refused the trimmed duration field

  datatype Training = Training(steps: Int64, activity: string, duration: Duration)

  /**
   * The field checks of parseTraining, in their order: the step field is
   * trimmed, parsed and must be positive; the label is kept as it is; the
   * duration field is trimmed and parsed, and its sign is not checked.
   */
  function ParseFields(stepsField: string, activity: string, durationField: string, parseDuration: DurationParser)
    : (r: Result<Training, ParseError>)
    ensures r == Failure(BadSteps) <==> Strconv.Atoi(Strings.TrimSpace(stepsField)).None?
    ensures r == Failure(NonPositiveSteps) <==>
              Strconv.Atoi(Strings.TrimSpace(stepsField)).Some? && Strconv.Atoi(Strings.TrimSpace(stepsField)).value <= 0
    ensures r == Failure(BadDuration) <==>
              Strconv.Atoi(Strings.TrimSpace(stepsField)).Some? && Strconv.Atoi(Strings.TrimSpace(stepsField)).value > 0
              && parseDuration(Strings.TrimSpace(durationField)).None?
    ensures r.Success? <==>
              Strconv.Atoi(Strings.TrimSpace(stepsField)).Some? && Strconv.Atoi(Strings.TrimSpace(stepsField)).value > 0
              && parseDuration(Strings.TrimSpace(durationField)).Some?
    ensures r.Success? ==>
              && r.value.steps > 0
              && Strconv.Atoi(Strings.TrimSpace(stepsField)) == Some(r.value.steps)
              && r.value.activity == activity
              && parseDuration(Strings.TrimSpace(durationField)) == Some(r.value.duration)
  {
    match Strconv.Atoi(Strings.TrimSpace(stepsField))
    case None => Failure(BadSteps)
    case Some(steps) =>
      if steps <= 0 then Failure(NonPositiveSteps)
      else
        match parseDuration(Strings.TrimSpace(durationField))
        case None => Failure(BadDuration)
        case Some(duration) => Success(Training(steps, activity, duration))
  }

  /** parseTraining: exactly three comma-separated fields, then the field checks. */
  function ParseTraining(data: string, parseDuration: DurationParser): (r: Result<Training, ParseError>)
    ensures r == Failure(WrongFieldCount(Strings.Count(data, ',') + 1)) <==> Strings.Count(data, ',') != 2
    ensures r.Failure? && r.error.WrongFieldCount? ==> r.error.got != 3
    ensures r.Success? ==> r.value.steps > 0
  {
    var parts := Strings.Split(data, ',');
    if |parts| != 3 then Failure(WrongFieldCount(|parts|))
    else ParseFields(parts[0], parts[1], parts[2], parseDuration)
  }

  /** A record made of three comma-free fields is judged by the field checks alone. */
  lemma ParseTrainingFields(f0: string, f1: string, f2: string, parseDuration: DurationParser)
    requires ',' !in f0 && ',' !in f1 && ',' !in f2
    ensures ParseTraining(f0 + "," + f1 + "," + f2, parseDuration) == ParseFields(f0, f1, f2, parseDuration)
  {
    var parts := [f0, f1, f2];
    assert Strings.Join(parts[2..], ',') == f2;
    assert Strings.Join(parts[1..], ',') == f1 + "," + f2;
    assert Strings.Join(parts, ',') == f0 + "," + f1 + "," + f2;
    Strings.SplitOfJoin(parts, ',');
  }

  /** Every record with two commas is three such fields. */
  lemma ThreeFields(data: string)
    requires Strings.Count(data, ',') == 2
    ensures var p := Strings.Split(data, ',');
            data == p[0] + "," + p[1] + "," + p[2]
  {
    var p := Strings.Split(data, ',');
    Strings.JoinOfSplit(data, ',');
    assert Strings.Join(p[2..], ',') == p[2];
    assert Strings.Join(p[1..], ',') == p[1] + "," + p[2];
  }

  /** distance: step length from height (0.45 of it), times steps, in kilometres. */
  function Distance(steps: int, height: real): (km: real)
    ensures km * MInKm == (StepLengthCoefficient * height) * steps as real
  {
    var stepLength := height * StepLengthCoefficient;
    var totalDistance := stepLength * steps as real;
    totalDistance / MInKm
  }

  lemma DistanceLinear(a: int, b: int, k: int, height: real)
    ensures Distance(0, height) == 0.0
    ensures Distance(a + b, height) == Distance(a, height) + Distance(b, height)
    ensures Distance(k * a, height) == k as real * Distance(a, height)
  {
  }

  lemma DistanceSign(steps: int, height: real)
    ensures steps >= 0 && height >= 0.0 ==> Distance(steps, height) >= 0.0
    ensures steps > 0 ==> (Distance(steps, height) < 0.0 <==> height < 0.0)
    ensures steps > 0 ==> (Distance(steps, height) > 0.0 <==> height > 0.0)
  {
  }

  /** meanSpeed: zero for a non-positive duration, otherwise distance per hour. */
  function MeanSpeed(steps: int, height: real, duration: Duration): (speed: real)
    ensures duration <= 0 ==> speed == 0.0
    ensures duration > 0 ==> speed * Hours(duration) == Distance(steps, height)
  {
    if duration <= 0 then 0.0
    else
      var dist := Distance(steps, height);
      var hours := Hours(duration);
      dist / hours
  }

  lemma MeanSpeedSign(steps: int, height: real, duration: Duration)
    ensures steps >= 0 && height >= 0.0 ==> MeanSpeed(steps, height, duration) >= 0.0
    ensures steps > 0 && duration > 0 ==> (MeanSpeed(steps, height, duration) < 0.0 <==> height < 0.0)
  {
  }

  /** weight * speed * minutes / 60 is weight times the distance: minutes / 60 are the hours. */
  lemma CaloriesCancel(steps: int, weight: real, height: real, duration: Duration)
    requires duration > 0
    ensures (weight * MeanSpeed(steps, height, duration) * Minutes(duration)) / MinInH
            == weight * Distance(steps, height)
    ensures ((weight * Minutes(duration) * MeanSpeed(steps, height, duration)) / MinInH) * WalkingCaloriesCoefficient
            == WalkingCaloriesCoefficient * weight * Distance(steps, height)
  {
  }

  datatype CalorieError = NegativeSteps | NonPositiveWeight | NonPositiveHeight | NonPositiveDuration | NegativeSpeed

  /** The `(float64, error)` pair of a calorie function: the value is 0 when there is an error. */
  datatype Calories = Calories(value: real, err: Option<CalorieError>)

  /**
   * RunningSpentCalories: the guards in their order, then
   * weight * speed * minutes / 60, which is weight times the distance.
   * The negative-speed guard never fires once the others have passed.
   */
  function RunningSpentCalories(steps: int, weight: real, height: real, duration: Duration): (r: Calories)
    ensures r.err.Some? ==> r.value == 0.0
    ensures r.err == Some(NegativeSteps) <==> steps < 0
    ensures r.err == Some(NonPositiveWeight) <==> steps >= 0 && weight <= 0.0
    ensures r.err == Some(NonPositiveHeight) <==> steps >= 0 && weight > 0.0 && height <= 0.0
    ensures r.err == Some(NonPositiveDuration) <==> steps >= 0 && weight > 0.0 && height > 0.0 && duration <= 0
    ensures r.err == None <==> steps >= 0 && weight > 0.0 && height > 0.0 && duration > 0
    ensures r.err != Some(NegativeSpeed)
    ensures r.err == None ==> r.value == weight * Distance(steps, height)
  {
    if steps < 0 then Calories(0.0, Some(NegativeSteps))
    else if weight <= 0.0 then Calories(0.0, Some(NonPositiveWeight))
    else if height <= 0.0 then Calories(0.0, Some(NonPositiveHeight))
    else if duration <= 0 then Calories(0.0, Some(NonPositiveDuration))
    else
      var speed := MeanSpeed(steps, height, duration);
      MeanSpeedSign(steps, height, duration);
      if speed < 0.0 then Calories(0.0, Some(NegativeSpeed))
      else
        var minutes := Minutes(duration);
        CaloriesCancel(steps, weight, height, duration);
        Calories((weight * speed * minutes) / MinInH, None)
  }

  /**
   * WalkingSpentCalories: the same guards in the same order, then half of
   * weight * minutes * speed / 60.
   */
  function WalkingSpentCalories(steps: int, weight: real, height: real, duration: Duration): (r: Calories)
    ensures r.err.Some? ==> r.value == 0.0
    ensures r.err == Some(NegativeSteps) <==> steps < 0
    ensures r.err == Some(NonPositiveWeight) <==> steps >= 0 && weight <= 0.0
    ensures r.err == Some(NonPositiveHeight) <==> steps >= 0 && weight > 0.0 && height <= 0.0
    ensures r.err == Some(NonPositiveDuration) <==> steps >= 0 && weight > 0.0 && height > 0.0 && duration <= 0
    ensures r.err == None <==> steps >= 0 && weight > 0.0 && height > 0.0 && duration > 0
    ensures r.err != Some(NegativeSpeed)
    ensures r.err == None ==> r.value == WalkingCaloriesCoefficient * weight * Distance(steps, height)
  {
    if steps < 0 then Calories(0.0, Some(NegativeSteps))
    else if weight <= 0.0 then Calories(0.0, Some(NonPositiveWeight))
    else if height <= 0.0 then Calories(0.0, Some(NonPositiveHeight))
    else if duration <= 0 then Calories(0.0, Some(NonPositiveDuration))
    else
      var speed := MeanSpeed(steps, height, duration);
      MeanSpeedSign(steps, height, duration);
      if speed < 0.0 then Calories(0.0, Some(NegativeSpeed))
      else
        var minutes := Minutes(duration);
        CaloriesCancel(steps, weight, height, duration);
        Calories(((weight * minutes * speed) / MinInH) * WalkingCaloriesCoefficient, None)
  }

  /** Both calorie functions fail on exactly the same inputs, with the same error, and walking is half of running. */
  lemma WalkingIsHalfRunning(steps: int, weight: real, height: real, duration: Duration)
    ensures WalkingSpentCalories(steps, weight, height, duration).err == RunningSpentCalories(steps, weight, height, duration).err
    ensures WalkingSpentCalories(steps, weight, height, duration).value
            == WalkingCaloriesCoefficient * RunningSpentCalories(steps, weight, height, duration).value
  {
  }

  datatype Activity = Running | Walking

  /** The values TrainingInfo renders: activity, hours, km, km/h, kcal. */
  datatype Summary = Summary(activity: Activity, hours: real, distanceKm: real, speedKmh: real, calories: real)

  datatype TrainingError = ParseFailed(cause: ParseError) | SpeedFailed | UnknownActivity

  /**
   * The part of TrainingInfo after parsing: a negative speed is an error;
   * the lower-cased label picks running or walking, anything else is an
   * error; both calorie functions are evaluated and their errors dropped,
   * so a failed guard reports 0 calories.
   */
  function Summarize(t: Training, weight: real, height: real, toLower: string -> string): (r: Result<Summary, TrainingError>)
    requires t.steps > 0
    ensures r == Failure(SpeedFailed) <==> height < 0.0 && t.duration > 0
    ensures r == Failure(UnknownActivity) <==>
              !(height < 0.0 && t.duration > 0) && toLower(t.activity) != RunningLabel && toLower(t.activity) != WalkingLabel
    ensures r.Success? <==>
              !(height < 0.0 && t.duration > 0) && (toLower(t.activity) == RunningLabel || toLower(t.activity) == WalkingLabel)
    ensures r.Success? ==>
              && (r.value.activity == Running <==> toLower(t.activity) == RunningLabel)
              && r.value.hours == Hours(t.duration)
              && r.value.distanceKm == Distance(t.steps, height)
              && r.value.speedKmh == MeanSpeed(t.steps, height, t.duration) >= 0.0
              && r.value.calories
                 == (if r.value.activity == Running then RunningSpentCalories(t.steps, weight, height, t.duration)
                     else WalkingSpentCalories(t.steps, weight, height, t.duration)).value
  {
    var speed := MeanSpeed(t.steps, height, t.duration);
    MeanSpeedSign(t.steps, height, t.duration);
    if speed < 0.0 then Failure(SpeedFailed)
    else
      var distance := Distance(t.steps, height);
      var caloriesRunning := RunningSpentCalories(t.steps, weight, height, t.duration);
      var caloriesWalking := WalkingSpentCalories(t.steps, weight, height, t.duration);
      var kind := toLower(t.activity);
      if kind == RunningLabel then
        Success(Summary(Running, Hours(t.duration), distance, speed, caloriesRunning.value))
      else if kind == WalkingLabel then
        Success(Summary(Walking, Hours(t.duration), distance, speed, caloriesWalking.value))
      else Failure(UnknownActivity)
  }

  /**
   * The calories a summary reports: 0 when the weight, the height or the
   * duration is not positive (the calorie error is dropped), otherwise
   * weight times distance for running and half of that for walking.
   */
  lemma SummarizeCalories(t: Training, weight: real, height: real, toLower: string -> string)
    requires t.steps > 0
    requires Summarize(t, weight, height, toLower).Success?
    ensures var s := Summarize(t, weight, height, toLower).value;
            && (weight <= 0.0 || height <= 0.0 || t.duration <= 0 ==> s.calories == 0.0)
            && (weight > 0.0 && height > 0.0 && t.duration > 0 && s.activity == Running ==>
                  s.calories == weight * s.distanceKm)
            && (weight > 0.0 && height > 0.0 && t.duration > 0 && s.activity == Walking ==>
                  s.calories == WalkingCaloriesCoefficient * weight * s.distanceKm)
  {
  }

  /** TrainingInfo: parse errors are passed on unchanged, otherwise the record is summarised. */
  function TrainingInfo(data: string, weight: real, height: real, parseDuration: DurationParser, toLower: string -> string)
    : (r: Result<Summary, TrainingError>)
    ensures ParseTraining(data, parseDuration).Failure? ==>
              r == Failure(ParseFailed(ParseTraining(data, parseDuration).error))
    ensures Strings.Count(data, ',') != 2 ==> r == Failure(ParseFailed(WrongFieldCount(Strings.Count(data, ',') + 1)))
    ensures (r.Failure? ==> !r.error.ParseFailed?) ==> ParseTraining(data, parseDuration).Success?
    ensures ParseTraining(data, parseDuration).Success? ==>
              r == Summarize(ParseTraining(data, parseDuration).value, weight, height, toLower)
  {
    match ParseTraining(data, parseDuration)
    case Failure(e) => Failure(ParseFailed(e))
    case Success(t) => Summarize(t, weight, height, toLower)
  }

  /** Labels that lower-case alike give the same summary. */
  lemma LabelCaseInsensitive(f0: string, a: string, b: string, f2: string, weight: real, height: real,
                             parseDuration: DurationParser, toLower: string -> string)
    requires ',' !in f0 && ',' !in a && ',' !in b && ',' !in f2
    requires toLower(a) == toLower(b)
    ensures TrainingInfo(f0 + "," + a + "," + f2, weight, height, parseDuration, toLower)
            == TrainingInfo(f0 + "," + b + "," + f2, weight, height, parseDuration, toLower)
  {
    ParseTrainingFields(f0, a, f2, parseDuration);
    ParseTrainingFields(f0, b, f2, parseDuration);
  }

  /**
   * White space around the step and duration fields does not change the
   * outcome, while the label comes back with its own white space as it is.
   */
  lemma PaddingAroundNumbersIgnored(pre0: string, x0: string, post0: string, f1: string,
                                    pre2: string, x2: string, post2: string, parseDuration: DurationParser)
    requires Strings.AllSpace(pre0) && Strings.AllSpace(post0) && Strings.AllSpace(pre2) && Strings.AllSpace(post2)
    requires Strings.Trimmed(x0) && Strings.Trimmed(x2)
    requires ',' !in x0 && ',' !in f1 && ',' !in x2
    ensures ParseTraining(pre0 + x0 + post0 + "," + f1 + "," + pre2 + x2 + post2, parseDuration)
            == ParseTraining(x0 + "," + f1 + "," + x2, parseDuration)
  {
    var padded0, padded2 := pre0 + x0 + post0, pre2 + x2 + post2;
    assert Strings.TrimSpace(padded0) == x0 by { Strings.TrimSpaceOfPadded(pre0, x0, post0); }
    assert Strings.TrimSpace(padded2) == x2 by { Strings.TrimSpaceOfPadded(pre2, x2, post2); }
    assert ',' !in padded0 by {
      Strings.SpaceIsNotComma(pre0);
      Strings.SpaceIsNotComma(post0);
    }
    assert ',' !in padded2 by {
      Strings.SpaceIsNotComma(pre2);
      Strings.SpaceIsNotComma(post2);
    }
    assert pre0 + x0 + post0 + "," + f1 + "," + pre2 + x2 + post2 == padded0 + "," + f1 + "," + padded2;
    calc {
      ParseTraining(padded0 + "," + f1 + "," + padded2, parseDuration);
      { ParseTrainingFields(padded0, f1, padded2, parseDuration); }
      ParseFields(padded0, f1, padded2, parseDuration);
      { FieldsTrimmed(padded0, f1, padded2, parseDuration); }
      ParseFields(x0, f1, x2, parseDuration);
      { ParseTrainingFields(x0, f1, x2, parseDuration); }
      ParseTraining(x0 + "," + f1 + "," + x2, parseDuration);
    }
  }

  /** The field checks see only the trimmed step and duration fields. */
  lemma FieldsTrimmed(stepsField: string, activity: string, durationField: string, parseDuration: DurationParser)
    ensures ParseFields(stepsField, activity, durationField, parseDuration)
            == ParseFields(Strings.TrimSpace(stepsField), activity, Strings.TrimSpace(durationField), parseDuration)
  {
  }

  /** A zero or negative duration passes the training parser. */
  lemma NonPositiveDurationParses(f0: string, f1: string, f2: string, parseDuration: DurationParser, d: Duration)
    requires ',' !in f0 && ',' !in f1 && ',' !in f2
    requires Strconv.Atoi(Strings.TrimSpace(f0)).Some? && Strconv.Atoi(Strings.TrimSpace(f0)).value > 0
    requires parseDuration(Strings.TrimSpace(f2)) == Some(d) && d <= 0
    ensures ParseTraining(f0 + "," + f1 + "," + f2, parseDuration).Success?
    ensures ParseTraining(f0 + "," + f1 + "," + f2, parseDuration).value.duration == d
  {
    ParseTrainingFields(f0, f1, f2, parseDuration);
  }
}
