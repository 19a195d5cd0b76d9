# FitMAP workout core, modelled in Dafny

FitMAP is a browser widget. You click a place on a map and fill in a small form, and it records a
running or cycling workout there. It keeps the list in memory and saves it to local storage under
the key `"workouts"`. This project models the part of `script.js` whose behaviour can be stated:

- the workout entity: its identifier, the derived pace or speed, the description text and the
  click counter (`Workouts`, with the helper text functions in `Text`);
- the rule that decides whether a submitted form is accepted (`Validation`);
- the in-memory list, lookup by identifier and the save / load / reset of the storage key
  (`Tracker`).

The two clock reads made when a workout is created are passed in as a `Clock`. These are
`Date.now()` for the identifier and `new Date()` for the month and day. Each number typed into
the form arrives as a `Num`: a finite real, `NaN`, `+Infinity` or `-Infinity`.

Files: `wrappers.dfy` (Option), `text.dfy`, `workouts.dfy`, `validation.dfy`, `tracker.dfy`.

Three details of `script.js` that the model keeps:

- Validation happens in `_newWorkout`, before a constructor is called. The constructors
  themselves check nothing.
- Loading with no saved list leaves the current list alone; it does not set it to empty. The
  list is empty at start-up, so the two only differ for a load made later on.
- A saved empty list (`[]`) counts as present and replaces the current list.

## Model

| member | source | states |
|---|---|---|
| `Text.DecimalString` | script.js:61 | A number turned into text (`n + ''`) is a non-empty string of decimal digits with no leading zero |
| `Text.ParseDecimalString` | script.js:61 | Reading the decimal text of a number back gives that number, so distinct numbers get distinct text |
| `Text.Capitalised` | script.js:88 | `type[0].toUpperCase()` followed by `type.slice(1)`: the result is as long as the word, its first character is upper-cased and the rest is unchanged |
| `Workouts.IdFrom` | script.js:61 | `slice(-10)` keeps the last `min(10, length)` characters, and these are a suffix of the text |
| `Workouts.TimestampId` | script.js:61 | The id is the last ten characters of the decimal text of `Date.now()`, or all of it when shorter; it has 1 to 10 characters, all decimal digits |
| `Workouts.TimestampIdValue` | script.js:61 | Read as a number, the id is the timestamp modulo 10^10: it keeps only the value of the timestamp's last ten decimal digits |
| `Workouts.Pace` | script.js:107-111 | Pace times distance is the duration, and pace is positive when the duration is |
| `Workouts.Speed` | script.js:123-127 | Speed times duration is sixty times the distance (km/h from minutes), and speed is positive when the distance is |
| `Workouts.Description` | script.js:72-91 | `_setDescription`: the text starts with the capitalised type followed by " on " and ends with the decimal day of the month; `DescriptionRoundTrip` shows that it determines the kind, month and day |
| `Workouts.MonthDayRoundTrip` | script.js:73-90 | "<month name> <day>" reads back to the month index and day it was built from |
| `Workouts.DescriptionRoundTrip` | script.js:72-91 | A description determines its workout kind, month and day: parsing it gives them back |
| `Workouts.DescriptionExample` | script.js:88-90 | A running workout on month index 3, day 14 is described as "Running on April 14" |
| `Workouts.RunningRecord` | script.js:98-111 | A new running workout has clicks 0, the timestamp id, the given position, distance, duration and cadence, a pace equal to `Pace(distance, duration)` (so pace × distance = duration), and the running description of its date |
| `Workouts.CyclingRecord` | script.js:114-127 | A new cycling workout has clicks 0, the timestamp id, the given position, distance, duration and elevation gain, a speed equal to `Speed(distance, duration)` (so speed × duration = 60 × distance), and the cycling description of its date |
| `Workouts.Workout.NewRunning` | script.js:98-105 | Constructing a `Running` object yields exactly the running record above |
| `Workouts.Workout.NewCycling` | script.js:114-121 | Constructing a `Cycling` object yields exactly the cycling record above |
| `Workouts.Workout.Click` | script.js:93-95 | `click()` adds exactly one to `clicks` and leaves every other field as it was |
| `Workouts.Workout.Data` | script.js:403 | The plain record `JSON.stringify` writes for a workout carries every field of the object: id, date, position, distance, duration, clicks, description and the kind's metrics |
| `Validation.FinitePositive` | script.js:246-249 | `validInputs` (every input passes `Number.isFinite`) together with `positiveNumbers` (every input is `> 0`, which +Infinity passes) holds exactly when every input is a finite value above zero: an infinite input never gets past the finiteness test |
| `Validation.Accepts` | script.js:245-289 | A running form is accepted iff distance, duration and cadence are all finite and above zero. A cycling form is accepted iff distance, duration and elevation are finite and distance and duration are above zero |
| `Validation.CyclingElevationAnySign` | script.js:277-288 | For an accepted cycling form, any finite elevation (negative or zero too) is accepted |
| `Validation.RunningNeedsPositiveCadence` | script.js:263-270 | A running form whose cadence is zero or negative is rejected |
| `Validation.NewRecord` | script.js:263-289 | The workout built from an accepted form has the form's kind, position, distance and duration (both positive) and cadence or elevation, the timestamp id and the creation date, its pace or speed computed from that distance and duration, and no clicks |
| `Validation.AcceptedDescription` | script.js:272-288 | The description of the workout built from an accepted form reads back as the form's kind and the creation month and day |
| `Tracker.Storage.SetItem` | script.js:403 | Saving overwrites the key with exactly the given list |
| `Tracker.Storage.GetItem` | script.js:407 | Reading returns what the key holds, or none when it is absent |
| `Tracker.Storage.RemoveItem` | script.js:419 | After removal the key is absent |
| `Tracker.FirstWithId` | script.js:385-387 | `find` gives the first position whose id matches; with no match, no position has that id |
| `Tracker.App.constructor` | script.js:149-156 | The app starts with the saved list if there is one, else with an empty list |
| `Tracker.App.NewWorkout` | script.js:245-311 | The result is true iff the form is accepted. On acceptance the list grows by exactly the new workout, at the end, and the key then holds the whole new list. On rejection the list and the key are unchanged |
| `Tracker.App.FindById` | script.js:379-388 | Looking up an id returns the first workout in the list with that id, or nothing iff none has it |
| `Tracker.App.SetLocalStorage` | script.js:402-404 | After saving, the key holds exactly the current list, in order |
| `Tracker.App.GetLocalStorage` | script.js:406-416 | A saved list replaces the current one. With the key absent the current list is kept. The key is not changed |
| `Tracker.App.Reset` | script.js:418-421 | After a reset the key is absent |
| `Tracker.SaveThenLoad` | script.js:402-411 | Saving then loading leaves the list as it was and the key holding that list |
| `Tracker.ResetThenReload` | script.js:418-420 | After a reset and a page reload, the app starts with an empty list and the key stays absent |

## Left out

- Leaflet map work is not modelled: loading the map, the markers and popups, and centring the view on a workout (`_loadMap`, `_renderWorkoutMarker`, `setView`). These are calls into a foreign library.
- Geolocation (`_getPosition`) is left out. It is an asynchronous browser API, and the clicked position is a parameter of the submission instead.
- DOM form handling is left out: showing and hiding the form, toggling the elevation row, clearing the inputs, the `setTimeout`. It is UI state.
- The HTML list entries (`_renderWorkout`) are left out. They are markup, and their numbers come from `toFixed` float formatting.
- Alert dialogs (`Swal.fire`) and the delete confirmation are left out. They are UI; a rejection is the `false` result of `NewWorkout`, and `Reset` is the confirmed branch.
- `location.reload()` after a reset is not part of `Reset`. `ResetThenReload` shows its effect by building a fresh app on the same storage.
- JSON text encoding is left out. Storage holds the records themselves, so serialising is the identity. The loss of the class prototype on reload does not arise, and `click()` on reloaded entries is not modelled.
- Clock reads (`Date.now()`, `new Date()`) are parameters. Of the `date` field only the month index and the day of the month are kept: they are all the rest of the core uses.
- Turning form text into numbers (unary `+`) is left out. The inputs arrive as `Num` values.
- IEEE-754 arithmetic is not modelled: see the `Pace` and `Speed` lines below.
- The commented-out `Swimming` class, `_toggleTemperature` and `sort` are dead code and not modelled.
- A type value other than "running" or "cycling" cannot be represented, because `Kind` has two values. The select offers only these two; any other value would push `undefined` onto the list.
- `App.workouts` holds the data of each workout, not references to live `Workout` objects. The only `click()` call in `_moveToPopup` is commented out, so no list entry is ever clicked.
- `FindById` returns nothing for an unknown id. There `_moveToPopup` would fail on `workout.coordinates`, a path the page never takes.
- Storage failures (quota exceeded, storage disabled) and malformed stored text are not modelled. The key is either absent or holds a list.
- Workouts.Pace: exact real division with a positive distance required. It does not model IEEE-754 rounding, or the `Infinity`/`NaN` a zero distance would give, which validation rules out before any workout is built.
- Workouts.Speed: exact real division with a positive duration required. It does not model IEEE-754 rounding, or a zero duration, which validation rules out.
- Text.Capitalised: upper-cases ASCII letters only. It is applied only to "running" and "cycling".
