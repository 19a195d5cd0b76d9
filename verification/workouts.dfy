/**
 * The workout entity of FitMAP: a running or cycling session recorded at a map
 * position, with the metrics derived once when it is created (pace for running,
 * speed for cycling), its identifier cut from the creation timestamp, its
 * human-readable description, and a click counter.
 */
module Workouts {
  import opened Wrappers
  import opened Text

  /** A map position: latitude and longitude in degrees. */
  datatype LatLng = LatLng(lat: real, lng: real)

  /** The month (0 for January, as `Date.getMonth` counts) and day of the month of a date. */
  datatype CalendarDay = CalendarDay(monthIndex: nat, day: nat)

  /** What a JavaScript `Date` can report: a month index below 12 and a day from 1 to 31. */
  predicate ValidDay(d: CalendarDay) {
    d.monthIndex < 12 && 1 <= d.day <= 31
  }

  /** The two clock reads made when a workout is created: `Date.now()` and `new Date()`. */
  datatype Clock = Clock(nowMs: nat, date: CalendarDay)

  /** The `type` field of a workout. */
  datatype Kind = Running | Cycling

  /** The fields only one kind of workout has, derived metric included. */
  datatype Metrics =
    | RunningMetrics(cadence: real, pace: real)        // steps per minute, min/km
    | CyclingMetrics(elevationGain: real, speed: real) // metres, km/h

  /**
   * A workout as plain data: every field a workout carries, which is also what
   * is written to and read back from storage.
   */
  datatype WorkoutRecord = WorkoutRecord(
    id: string,
    date: CalendarDay,
    coordinates: LatLng,
    distance: real,   // km
    duration: real,   // minutes
    clicks: nat,
    description: string,
    metrics: Metrics)

  function KindOf(m: Metrics): Kind {
    match m
    case RunningMetrics(_, _) => Running
    case CyclingMetrics(_, _) => Cycling
  }

  function KindName(k: Kind): string {
    match k
    case Running => "running"
    case Cycling => "cycling"
  }

  const MonthNames: seq<string> := [
    "January", "February", "March", "April", "May", "June", "July",
    "August", "September", "October", "November", "December"
  ]

  /** Running pace in minutes per kilometre: `duration / distance`. */
  function Pace(distance: real, duration: real): (pace: real)
    requires distance > 0.0
    ensures pace * distance == duration
    ensures duration > 0.0 ==> pace > 0.0
  {
    duration / distance
  }

  /** Cycling speed in kilometres per hour: `distance / (duration / 60)`. */
  function Speed(distance: real, duration: real): (speed: real)
    requires duration > 0.0
    ensures speed * duration == 60.0 * distance
    ensures distance > 0.0 ==> speed > 0.0
  {
    distance / (duration / 60.0)
  }

  /** `text.slice(-10)`: the last ten characters of `text`, or all of it if shorter. */
  function IdFrom(text: string): (id: string)
    ensures |id| == if |text| < 10 then |text| else 10
    ensures id == text[|text| - |id|..]
  {
    if |text| <= 10 then text else text[|text| - 10..]
  }

  /** The identifier of a workout created at `nowMs`: `(Date.now() + '').slice(-10)`. */
  function TimestampId(nowMs: nat): (id: string)
    ensures 1 <= |id| <= 10 && AllDigits(id)
    ensures var text := DecimalString(nowMs); |id| == (if |text| < 10 then |text| else 10) && id == text[|text| - |id|..]
  {
    var text := DecimalString(nowMs);
    SuffixOfDigits(text, |text| - |IdFrom(text)|);
    IdFrom(text)
  }

  /** The identifier, read as a number, is the timestamp modulo ten to the tenth. */
  lemma {:induction false} TimestampIdValue(nowMs: nat)
    ensures DigitsValue(TimestampId(nowMs)) == nowMs % Pow10(10)
  {
    var text := DecimalString(nowMs);
    var id := TimestampId(nowMs);
    DecimalSuffixValue(nowMs, |id|);
    if |text| < 10 {
      DecimalStringBound(nowMs);
      PowMonotone(|text|, 10);
      ModUnique(nowMs, Pow10(|text|), 0, nowMs);
      ModUnique(nowMs, Pow10(10), 0, nowMs);
    }
  }

  lemma {:induction false} PowMonotone(i: nat, j: nat)
    requires i <= j
    ensures Pow10(i) <= Pow10(j)
    decreases j
  {
    if i < j {
      PowMonotone(i, j - 1);
    }
  }

  /** The kind's name with its first letter upper-cased, as the description begins. */
  function Title(k: Kind): string {
    Capitalised(KindName(k))
  }

  /** `_setDescription`: for example "Running on April 14". */
  function Description(k: Kind, date: CalendarDay): (r: string)
    requires date.monthIndex < |MonthNames|
    ensures Title(k) + " on " <= r
    ensures |r| > |DecimalString(date.day)| && r[|r| - |DecimalString(date.day)|..] == DecimalString(date.day)
  {
    Title(k) + " on " + MonthNames[date.monthIndex] + " " + DecimalString(date.day)
  }

  /** Position of `name` among the month names, if it is one. */
  function MonthIndex(name: string): (r: Option<nat>)
    ensures r.Some? ==> r.value < |MonthNames| && MonthNames[r.value] == name
    ensures r.None? ==> name !in MonthNames
  {
    if name == MonthNames[0] then Some(0)
    else if name == MonthNames[1] then Some(1)
    else if name == MonthNames[2] then Some(2)
    else if name == MonthNames[3] then Some(3)
    else if name == MonthNames[4] then Some(4)
    else if name == MonthNames[5] then Some(5)
    else if name == MonthNames[6] then Some(6)
    else if name == MonthNames[7] then Some(7)
    else if name == MonthNames[8] then Some(8)
    else if name == MonthNames[9] then Some(9)
    else if name == MonthNames[10] then Some(10)
    else if name == MonthNames[11] then Some(11)
    else None
  }

  /** Reads "<month name> <day>" back into a calendar day. */
  function ParseMonthDay(s: string): Option<CalendarDay> {
    match IndexOfSpace(s)
    case None => None
    case Some(i) =>
      match (MonthIndex(s[..i]), ParseDecimal(s[i + 1..]))
      case (Some(m), Some(d)) => Some(CalendarDay(m, d))
      case _ => None
  }

  /** Reads a description back into the kind and the calendar day it was made from. */
  function ParseDescription(s: string): Option<(Kind, CalendarDay)> {
    var run := Title(Running) + " on ";
    var ride := Title(Cycling) + " on ";
    if run <= s then
      match ParseMonthDay(s[|run|..])
      case Some(d) => Some((Running, d))
      case None => None
    else if ride <= s then
      match ParseMonthDay(s[|ride|..])
      case Some(d) => Some((Cycling, d))
      case None => None
    else None
  }

  lemma TitleText()
    ensures Title(Running) == "Running" && Title(Cycling) == "Cycling"
  {
  }

  lemma {:induction false} MonthNameFacts(m: nat)
    requires m < |MonthNames|
    ensures MonthIndex(MonthNames[m]) == Some(m)
    ensures ' ' !in MonthNames[m]
  {
  }

  /** "<month name> <day>" reads back into the calendar day it was made from. */
  lemma {:induction false} MonthDayRoundTrip(date: CalendarDay)
    requires date.monthIndex < |MonthNames|
    ensures ParseMonthDay(MonthNames[date.monthIndex] + " " + DecimalString(date.day)) == Some(date)
  {
    var name := MonthNames[date.monthIndex];
    var digits := DecimalString(date.day);
    var tail := name + " " + digits;
    MonthNameFacts(date.monthIndex);
    IndexOfSpaceAfterWord(name, digits);
    assert tail[..|name|] == name;
    assert tail[|name| + 1..] == digits;
    ParseDecimalString(date.day);
  }

  /** A title and " on " in front of a month and day read back as that kind and day. */
  lemma {:induction false} TitledRoundTrip(k: Kind, tail: string)
    requires ParseMonthDay(tail).Some?
    ensures ParseDescription(Title(k) + " on " + tail) == Some((k, ParseMonthDay(tail).value))
  {
    TitleText();
    var run := Title(Running) + " on ";
    var ride := Title(Cycling) + " on ";
    var s := Title(k) + " on " + tail;
    if k == Running {
      assert run <= s && s[|run|..] == tail;
    } else {
      assert s[0] != run[0];
      assert ride <= s && s[|ride|..] == tail;
    }
  }

  lemma DescriptionParts(k: Kind, date: CalendarDay)
    requires date.monthIndex < |MonthNames|
    ensures Description(k, date) == Title(k) + " on " + (MonthNames[date.monthIndex] + " " + DecimalString(date.day))
  {
  }

  /** The description determines the kind and the calendar day it was made from. */
  lemma {:induction false} DescriptionRoundTrip(k: Kind, date: CalendarDay)
    requires date.monthIndex < |MonthNames|
    ensures ParseDescription(Description(k, date)) == Some((k, date))
  {
    MonthDayRoundTrip(date);
    DescriptionParts(k, date);
    TitledRoundTrip(k, MonthNames[date.monthIndex] + " " + DecimalString(date.day));
  }

  /** A run on 14 April (month index 3) is described as "Running on April 14". */
  lemma DescriptionExample()
    ensures Description(Running, CalendarDay(3, 14)) == "Running on April 14"
  {
  }

  /** The record `new Running(...)` produces. */
  function RunningRecord(clock: Clock, coordinates: LatLng, distance: real, duration: real, cadence: real)
    : (w: WorkoutRecord)
    requires ValidDay(clock.date) && distance > 0.0
    ensures w.id == TimestampId(clock.nowMs) && w.date == clock.date && w.clicks == 0
    ensures w.coordinates == coordinates && w.distance == distance && w.duration == duration
    ensures w.metrics.RunningMetrics? && w.metrics.cadence == cadence
    ensures w.metrics.pace == Pace(distance, duration)
    ensures w.description == Description(Running, clock.date)
  {
    WorkoutRecord(TimestampId(clock.nowMs), clock.date, coordinates, distance, duration, 0,
                  Description(Running, clock.date), RunningMetrics(cadence, Pace(distance, duration)))
  }

  /** The record `new Cycling(...)` produces. */
  function CyclingRecord(clock: Clock, coordinates: LatLng, distance: real, duration: real, elevationGain: real)
    : (w: WorkoutRecord)
    requires ValidDay(clock.date) && duration > 0.0
    ensures w.id == TimestampId(clock.nowMs) && w.date == clock.date && w.clicks == 0
    ensures w.coordinates == coordinates && w.distance == distance && w.duration == duration
    ensures w.metrics.CyclingMetrics? && w.metrics.elevationGain == elevationGain
    ensures w.metrics.speed == Speed(distance, duration)
    ensures w.description == Description(Cycling, clock.date)
  {
    WorkoutRecord(TimestampId(clock.nowMs), clock.date, coordinates, distance, duration, 0,
                  Description(Cycling, clock.date), CyclingMetrics(elevationGain, Speed(distance, duration)))
  }

  /**
   * A live workout object. Only `clicks` ever changes after construction; the
   * other fields are set once by the constructor of the kind.
   */
  class Workout {
    const id: string
    const date: CalendarDay
    const coordinates: LatLng
    const distance: real
    const duration: real
    const description: string
    const metrics: Metrics
    var clicks: nat

    /** The workout as plain data, as `JSON.stringify` would record it. */
    function Data(): (r: WorkoutRecord)
      reads this
      ensures r.id == id && r.date == date && r.coordinates == coordinates
      ensures r.distance == distance && r.duration == duration && r.clicks == clicks
      ensures r.description == description && r.metrics == metrics
    {
      WorkoutRecord(id, date, coordinates, distance, duration, clicks, description, metrics)
    }

    /** `new Running(coordinates, distance, duration, cadence)`. */
    constructor NewRunning(clock: Clock, coordinates: LatLng, distance: real, duration: real, cadence: real)
      requires ValidDay(clock.date) && distance > 0.0
      ensures Data() == RunningRecord(clock, coordinates, distance, duration, cadence)
    {
      date := clock.date;
      id := TimestampId(clock.nowMs);
      clicks := 0;
      this.coordinates := coordinates;
      this.distance := distance;
      this.duration := duration;
      metrics := RunningMetrics(cadence, Pace(distance, duration));
      description := Description(Running, clock.date);
    }

    /** `new Cycling(coordinates, distance, duration, elevationGain)`. */
    constructor NewCycling(clock: Clock, coordinates: LatLng, distance: real, duration: real, elevationGain: real)
      requires ValidDay(clock.date) && duration > 0.0
      ensures Data() == CyclingRecord(clock, coordinates, distance, duration, elevationGain)
    {
      date := clock.date;
      id := TimestampId(clock.nowMs);
      clicks := 0;
      this.coordinates := coordinates;
      this.distance := distance;
      this.duration := duration;
      metrics := CyclingMetrics(elevationGain, Speed(distance, duration));
      description := Description(Cycling, clock.date);
    }

    /** `click()`: one more click, nothing else changes. */
    method Click()
      modifies this
      ensures clicks == old(clicks) + 1
      ensures Data() == old(Data()).(clicks := old(clicks) + 1)
    {
      clicks := clicks + 1;
    }
  }
}
