/**
 * The rule that decides whether a submitted form becomes a workout
 * (`_newWorkout`). Each numeric field arrives as a JavaScript number: a finite
 * value or one of NaN, +Infinity and -Infinity.
 */
module Validation {
  import opened Wrappers
  import opened Workouts

  /** A JavaScript number read from a form field. */
  datatype Num = Finite(value: real) | NaN | PosInfinity | NegInfinity

  /** `Number.isFinite(x)`. */
  predicate IsFinite(x: Num) {
    x.Finite?
  }

  /** `x > 0` on a JavaScript number: true of +Infinity, false of NaN and -Infinity. */
  predicate IsPositive(x: Num) {
    match x
    case Finite(v) => v > 0.0
    case PosInfinity => true
    case _ => false
  }

  /** `validInputs(...inputs)`: every input is finite. */
  predicate ValidInputs(inputs: seq<Num>) {
    forall i | 0 <= i < |inputs| :: IsFinite(inputs[i])
  }

  /** `positiveNumbers(...inputs)`: every input is greater than zero. */
  predicate PositiveNumbers(inputs: seq<Num>) {
    forall i | 0 <= i < |inputs| :: IsPositive(inputs[i])
  }

  /**
   * Finiteness tested together with positivity means every input is a finite
   * value above zero: `+Infinity > 0` holds, but such an input already fails
   * the finiteness test.
   */
  lemma {:induction false} FinitePositive(inputs: seq<Num>)
    ensures ValidInputs(inputs) && PositiveNumbers(inputs)
      <==> forall x | x in inputs :: x.Finite? && x.value > 0.0
  {
  }

  /**
   * What the form holds when it is submitted: the selected type, the clicked
   * map position and the numeric fields. Only the field the type needs of
   * cadence and elevation is read.
   */
  datatype Submission = Submission(
    kind: Kind,
    coordinates: LatLng,
    distance: Num,
    duration: Num,
    cadence: Num,
    elevation: Num)

  /** Whether `_newWorkout` creates a workout from the submission rather than showing an error. */
  function Accepts(s: Submission): (ok: bool)
    ensures s.kind == Running ==>
      (ok <==> s.distance.Finite? && s.duration.Finite? && s.cadence.Finite? &&
               s.distance.value > 0.0 && s.duration.value > 0.0 && s.cadence.value > 0.0)
    ensures s.kind == Cycling ==>
      (ok <==> s.distance.Finite? && s.duration.Finite? && s.elevation.Finite? &&
               s.distance.value > 0.0 && s.duration.value > 0.0)
  {
    match s.kind
    case Running =>
      var inputs := [s.distance, s.duration, s.cadence];
      assert inputs[0] == s.distance && inputs[1] == s.duration && inputs[2] == s.cadence;
      ValidInputs(inputs) && PositiveNumbers(inputs)
    case Cycling =>
      var inputs := [s.distance, s.duration];
      assert inputs[0] == s.distance && inputs[1] == s.duration;
      IsFinite(s.distance) && IsFinite(s.duration) && IsFinite(s.elevation) && PositiveNumbers(inputs)
  }

  /** The workout record an accepted submission adds, created at the time `clock` reports. */
  function NewRecord(s: Submission, clock: Clock): (w: WorkoutRecord)
    requires Accepts(s) && ValidDay(clock.date)
    ensures KindOf(w.metrics) == s.kind && w.clicks == 0
    ensures w.coordinates == s.coordinates
    ensures w.distance == s.distance.value > 0.0 && w.duration == s.duration.value > 0.0
    ensures s.kind == Running ==> w.metrics.cadence == s.cadence.value > 0.0
    ensures s.kind == Cycling ==> w.metrics.elevationGain == s.elevation.value
    ensures w.id == TimestampId(clock.nowMs) && w.date == clock.date
    ensures s.kind == Running ==> w.metrics.pace == Pace(w.distance, w.duration)
    ensures s.kind == Cycling ==> w.metrics.speed == Speed(w.distance, w.duration)
  {
    match s.kind
    case Running => RunningRecord(clock, s.coordinates, s.distance.value, s.duration.value, s.cadence.value)
    case Cycling => CyclingRecord(clock, s.coordinates, s.distance.value, s.duration.value, s.elevation.value)
  }

  /** A cycling submission with valid distance and duration is accepted whatever finite elevation it has. */
  lemma CyclingElevationAnySign(s: Submission, elevation: real)
    requires s.kind == Cycling && Accepts(s)
    ensures Accepts(s.(elevation := Finite(elevation)))
  {
  }

  /** A running submission with a cadence that is not above zero is rejected. */
  lemma RunningNeedsPositiveCadence(s: Submission)
    requires s.kind == Running && s.cadence.Finite? && s.cadence.value <= 0.0
    ensures !Accepts(s)
  {
  }

  /** The description of an accepted submission's workout reads back as its kind and creation day. */
  lemma AcceptedDescription(s: Submission, clock: Clock)
    requires Accepts(s) && ValidDay(clock.date)
    ensures ParseDescription(NewRecord(s, clock).description) == Some((s.kind, clock.date))
  {
    DescriptionRoundTrip(s.kind, clock.date);
  }
}
