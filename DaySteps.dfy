/**
 * internal/daysteps: parsing of a daily record `<steps>,<duration>` and the
 * daily summary (steps, distance at a fixed step length, walking calories).
 */
module DaySteps {
  import opened Wrappers
  import opened Ints
  import opened Time
  import Strings
  import Strconv
  import SpentCalories

  /** Length of one step in metres, and metres in a kilometre. */
  const StepLength: real := 0.65
  const MInKm: real := 1000.0

  datatype ParseError =
    | WrongFieldCount(got: nat)  // the record did not split into two fields
    | BadSteps                   // strconv.Atoi refused the raw step field
    | NonPositiveSteps
    | BadDuration                // time.ParseDuration refused the raw duration field
    | NonPositiveDuration

  datatype Package = Package(steps: Int64, duration: Duration)

  /**
   * The field checks of parsePackage, in their order. Nothing is trimmed:
   * the raw fields go to Atoi and to the duration parser.
   */
  function ParsePackageFields(stepsField: string, durationField: string, parseDuration: DurationParser)
    : (r: Result<Package, ParseError>)
    ensures r == Failure(BadSteps) <==> Strconv.Atoi(stepsField).None?
    ensures r == Failure(NonPositiveSteps) <==>
              Strconv.Atoi(stepsField).Some? && Strconv.Atoi(stepsField).value <= 0
    ensures r == Failure(BadDuration) <==>
              Strconv.Atoi(stepsField).Some? && Strconv.Atoi(stepsField).value > 0 && parseDuration(durationField).None?
    ensures r == Failure(NonPositiveDuration) <==>
              Strconv.Atoi(stepsField).Some? && Strconv.Atoi(stepsField).value > 0
              && parseDuration(durationField).Some? && parseDuration(durationField).value <= 0
    ensures r.Success? <==>
              Strconv.Atoi(stepsField).Some? && Strconv.Atoi(stepsField).value > 0
              && parseDuration(durationField).Some? && parseDuration(durationField).value > 0
    ensures r.Success? ==>
              && r.value.steps > 0 && r.value.duration > 0
              && Strconv.Atoi(stepsField) == Some(r.value.steps)
              && parseDuration(durationField) == Some(r.value.duration)
  {
    match Strconv.Atoi(stepsField)
    case None => Failure(BadSteps)
    case Some(steps) =>
      if steps <= 0 then Failure(NonPositiveSteps)
      else
        match parseDuration(durationField)
        case None => Failure(BadDuration)
        case Some(duration) =>
          if duration <= 0 then Failure(NonPositiveDuration)
          else Success(Package(steps, duration))
  }

  /** parsePackage: exactly two comma-separated fields, then the field checks. */
  function ParsePackage(data: string, parseDuration: DurationParser): (r: Result<Package, ParseError>)
    ensures r == Failure(WrongFieldCount(Strings.Count(data, ',') + 1)) <==> Strings.Count(data, ',') != 1
    ensures r.Failure? && r.error.WrongFieldCount? ==> r.error.got != 2
    ensures r.Success? ==> r.value.steps > 0 && r.value.duration > 0
  {
    var parts := Strings.Split(data, ',');
    if |parts| != 2 then Failure(WrongFieldCount(|parts|))
    else ParsePackageFields(parts[0], parts[1], parseDuration)
  }

  /** A record made of two comma-free fields is judged by the field checks alone. */
  lemma ParsePackageOfFields(f0: string, f1: string, parseDuration: DurationParser)
    requires ',' !in f0 && ',' !in f1
    ensures ParsePackage(f0 + "," + f1, parseDuration) == ParsePackageFields(f0, f1, parseDuration)
  {
    var parts := [f0, f1];
    assert Strings.Join(parts[1..], ',') == f1;
    assert Strings.Join(parts, ',') == f0 + "," + f1;
    Strings.SplitOfJoin(parts, ',');
  }

  /** Every record with one comma is two such fields. */
  lemma TwoFields(data: string)
    requires Strings.Count(data, ',') == 1
    ensures var p := Strings.Split(data, ',');
            data == p[0] + "," + p[1]
  {
    var p := Strings.Split(data, ',');
    Strings.JoinOfSplit(data, ',');
    assert Strings.Join(p[1..], ',') == p[1];
  }

  /**
   * The daily record written out from a positive step count and the text of
   * a positive duration is read back as exactly that pair.
   */
  lemma ParsePackageRoundTrip(steps: Int64, durationText: string, duration: Duration, parseDuration: DurationParser)
    requires steps > 0 && duration > 0
    requires ',' !in durationText && parseDuration(durationText) == Some(duration)
    ensures ParsePackage(Strconv.FormatInt(steps) + "," + durationText, parseDuration) == Success(Package(steps, duration))
  {
    var digits := Strconv.FormatInt(steps);
    assert ',' !in digits by {
      assert forall i :: 0 <= i < |digits| ==> Strconv.IsDigit(digits[i]);
    }
    Strconv.AtoiOfFormatInt(steps);
    ParsePackageOfFields(digits, durationText, parseDuration);
  }

  /** White space before the step count is not trimmed: it makes Atoi fail. */
  lemma LeadingSpaceRejected(c: char, f0: string, f1: string, parseDuration: DurationParser)
    requires Strings.IsSpace(c) && ',' !in f0 && ',' !in f1
    ensures ParsePackage([c] + f0 + "," + f1, parseDuration) == Failure(BadSteps)
  {
    ParsePackageOfFields([c] + f0, f1, parseDuration);
  }

  /** What DayActionInfo returns, short of its text. */
  datatype DayReport =
    | Empty                                             // the "" returned for every parse error
    | InvalidStepsMessage                               // the text returned for a non-positive step count
    | Report(steps: int, distanceKm: real, calories: real)

  /**
   * DayActionInfo: any parse error gives the empty result; otherwise the
   * distance at the fixed step length and the walking calories, whose error
   * is dropped.
   */
  function DayActionInfo(data: string, weight: real, height: real, parseDuration: DurationParser): (r: DayReport)
    ensures r.Empty? <==> ParsePackage(data, parseDuration).Failure?
    ensures !r.InvalidStepsMessage?
    ensures r.Report? ==>
              var p := ParsePackage(data, parseDuration).value;
              && r.steps == p.steps > 0
              && r.distanceKm * MInKm == StepLength * r.steps as real
              && r.calories == SpentCalories.WalkingSpentCalories(p.steps, weight, height, p.duration).value
  {
    match ParsePackage(data, parseDuration)
    case Failure(_) => Empty
    case Success(p) =>
      if p.steps <= 0 then InvalidStepsMessage
      else
        var distanceMeters := p.steps as real * StepLength;
        var distanceKm := distanceMeters / MInKm;
        var calories := SpentCalories.WalkingSpentCalories(p.steps, weight, height, p.duration);
        Report(p.steps, distanceKm, calories.value)
  }

  /**
   * The calories of a daily report: 0 when the weight or the height is not
   * positive, otherwise half of weight times the height-based distance.
   */
  lemma DayActionCalories(data: string, weight: real, height: real, parseDuration: DurationParser)
    requires DayActionInfo(data, weight, height, parseDuration).Report?
    ensures var r := DayActionInfo(data, weight, height, parseDuration);
            var p := ParsePackage(data, parseDuration).value;
            && (weight <= 0.0 || height <= 0.0 ==> r.calories == 0.0)
            && (weight > 0.0 && height > 0.0 ==>
                  r.calories == SpentCalories.WalkingCaloriesCoefficient * weight * SpentCalories.Distance(p.steps, height))
  {
  }

  /** The reported step count and distance do not depend on weight or height. */
  lemma DayDistanceIgnoresBody(data: string, w1: real, h1: real, w2: real, h2: real, parseDuration: DurationParser)
    requires DayActionInfo(data, w1, h1, parseDuration).Report?
    ensures DayActionInfo(data, w2, h2, parseDuration).Report?
    ensures DayActionInfo(data, w2, h2, parseDuration).steps == DayActionInfo(data, w1, h1, parseDuration).steps
    ensures DayActionInfo(data, w2, h2, parseDuration).distanceKm == DayActionInfo(data, w1, h1, parseDuration).distanceKm
  {
  }
}
