# Mapty workout log — a Dafny model of its core

Mapty is a browser app: the user clicks a point on a map, fills in a form
(running: distance, duration, cadence; cycling: distance, duration,
elevation gain), and the app creates a workout record. It shows the record
as a map marker and a list entry, and saves the whole collection in
`localStorage`. Below the DOM, Leaflet and storage code sits a small pure
core. This project models that core and proves properties of it:

- **Workout records** (`Workouts`): the `Workout` class and its `Running` and
  `Cycling` subclasses, as one two-variant datatype.
  - Pace (`duration / distance`) and speed (`distance / (duration / 60)`) are
    computed once, at construction, over exact `real` arithmetic.
  - The description is "<Type> on <Month> <day>". A parser written
    independently reads it back, and two lemmas show that description and
    label determine each other.
  - `click()` adds exactly one click and changes nothing else.
  - The id is the last ten digits of the millisecond clock. It is proved to
    encode `now mod 10^10`.
- **Decimal text** (`Decimal`): how a non-negative integer is printed in a
  template literal or a `Date.now() + ''` concatenation. The module also has
  a digit parser, and proves the two are inverse on canonical numerals.
- **Input validation** (`Validation`): `validInputs` / `allPositive` and the
  two branches of `_newWorkout`. Inputs are JavaScript numbers: a finite real,
  NaN, +Infinity or -Infinity. The asymmetry is kept: cycling never checks the
  sign of the elevation.
- **The controller** (`Controller`): the `#workouts` sequence, the last map
  click, and the `'workouts'` storage slot.
  - Submitting either appends exactly one record or leaves everything
    unchanged.
  - A list click is a linear `find` by id.
  - `delete` pops the last record, stores the rest and reloads.
  - `reset` removes the slot and reloads.
  - Start-up restores the stored collection, or keeps `[]` when the slot is
    absent.
  - Every event sequence keeps the storage slot and the in-memory collection
    in step.

The clock (`Date.now()`, and the month and day of `new Date()`) is a
parameter (`Controller.Clock`). The map click arrives as plain coordinates.
A list click arrives as the clicked entry's `data-id`, or as nothing when the
click was outside every entry.

A list click whose `data-id` matches no record makes `_moveToPopup` read
`workout.coords` on the `undefined` that `find` returns (script.js:337,
script.js:341), which throws; the model returns `MissingWorkout` and changes
no state.

## Model

| member | source | states |
|---|---|---|
| Decimal.NatToString | script.js:40 | the printed form of a number is a canonical numeral: digits only, at least one, no leading zero |
| Decimal.ParseNatToString | script.js:40 | reading back the decimal text of a day number gives the same number |
| Decimal.NatToStringOfParse | script.js:40 | every canonical numeral is the printed form of the number it denotes, so printing is a bijection onto canonical numerals |
| Decimal.ParseDigitsSuffix | script.js:21 | the last k digits of a numeral denote its value modulo 10^k, which is what `slice(-10)` keeps |
| Workouts.Pace | script.js:61-65 | pace times distance equals duration (minutes per mile), and pace is positive for positive inputs |
| Workouts.Speed | script.js:82-86 | speed times duration equals 60 times distance (miles per hour from minutes), and speed is positive for positive inputs |
| Workouts.NewRunning | script.js:51-59 | a new running record keeps the given coordinates, distance, duration and cadence, starts at 0 clicks, has pace·distance = duration, and its description is the description of (running, month, day) |
| Workouts.NewCycling | script.js:72-80 | a new cycling record keeps the given coordinates, distance, duration and elevation gain, starts at 0 clicks, has speed·duration = 60·distance, and its description is the description of (cycling, month, day) |
| Workouts.Description | script.js:34-41 | the description starts with the capitalised type name and " on " (literally "Running on " or "Cycling on ") and ends with a space and the day's numeral |
| Workouts.DescriptionRoundTrip | script.js:34-41 | the description "<Type> on <Month> <day>" parses back to exactly the type, month index and day it was built from |
| Workouts.ParsedDescriptionIsDescription | script.js:34-41 | any text that parses as a (type, month, day) label is exactly that label's description |
| Workouts.DescriptionInjective | script.js:34-41 | two descriptions are equal exactly when type, month and day are equal |
| Workouts.MonthNameFacts | script.js:36 | each of the twelve month names is found at its own index and contains no space |
| Workouts.Click | script.js:44-46 | clicking raises the click count by exactly one and leaves every other field as it was |
| Workouts.ClickTimesCounts | script.js:44-46 | n clicks raise the count by exactly n and change nothing else |
| Workouts.TimestampId | script.js:21 | the id is at most ten decimal digits and denotes the clock reading modulo 10^10 |
| Workouts.TimestampIdText | script.js:21 | the id is the text `slice(-10)` keeps, leading zeros included: the whole numeral of the clock when it has fewer than ten digits, otherwise its last ten characters |
| Workouts.TimestampIdsDistinct | script.js:21 | clock readings that differ by less than 10^10 ms give different ids |
| Validation.ValidInputs | script.js:184 | true exactly when every input is a finite number |
| Validation.AllPositive | script.js:185 | true exactly when every input compares greater than zero (NaN and -Infinity do not, +Infinity does) |
| Validation.RunningAccepted | script.js:199-208 | a running form passes exactly when distance, duration and cadence are all finite and strictly positive |
| Validation.CyclingAccepted | script.js:216-222 | a cycling form passes exactly when all three fields are finite and distance and duration are strictly positive; the elevation's sign is never checked |
| Validation.CyclingLaxerThanRunning | script.js:199-222 | every input triple running accepts, cycling also accepts; with a zero or negative third field cycling accepts and running rejects |
| Controller.BuildRunning | script.js:199-211 | an accepted running form yields a running record at the clicked coordinates with the form's distance, duration and cadence, 0 clicks, the clock's id and the description of the clock's month and day |
| Controller.BuildCycling | script.js:216-225 | an accepted cycling form yields a cycling record at the clicked coordinates with the form's distance, duration and elevation, 0 clicks, the clock's id and the description of the clock's month and day |
| Controller.Build | script.js:198-227 | an accepted form of either type yields the record it describes, of the chosen type, at the clicked coordinates |
| Controller.Submit | script.js:182-230 | a record is added exactly when the map was clicked and the form passes validation; then exactly one matching record is appended and earlier ones are untouched; otherwise the state is unchanged; with no map click the submission fails before validation |
| Controller.FindIndex | script.js:337 | returns the first position whose id matches, or nothing when no record has that id |
| Controller.MoveToPopup | script.js:329-346 | a click outside every entry is ignored; an unknown id is the missing-workout case; otherwise the map centres on the coordinates of the first record with that id |
| Controller.Restore | script.js:362-368 | the restored collection is the stored one when the slot is present, and the initial empty collection when it is absent |
| Controller.Start | script.js:359-376 | start-up takes the stored collection when the slot is present and keeps the empty collection otherwise, with no map click yet |
| Controller.OnMapClick | script.js:159-160 | a map click records its coordinates and changes neither the collection nor storage |
| Controller.OnSubmit | script.js:229-243 | an accepted submission stores the new collection; a rejected one changes nothing; memory and storage stay in step |
| Controller.Pop | script.js:388 | pop removes only the last record and keeps the rest in order; on an empty collection it stays empty |
| Controller.OnDelete | script.js:386-392 | after delete and reload, the collection is the old one minus its last record, that is what storage holds, and no map click is remembered |
| Controller.OnReset | script.js:379-384 | after reset and reload, storage is empty and the collection is empty |
| Controller.RunStaysInSync | script.js:352-392 | from a consistent start, every sequence of map clicks, submissions, list clicks, deletes and resets leaves storage holding exactly the in-memory collection |
| Controller.Step | script.js:111-119 | each event goes to its handler: a list click changes no state, only a submission can add a record, and at most one; every handler keeps storage and memory in step |
| Controller.Run | script.js:111-119 | across any event sequence the collection grows by at most one record per event |
| Controller.SubmitTwiceDistinctIds | script.js:20-22 | the same valid form submitted twice at different clock readings less than 10^10 ms apart adds two records with different ids |
| Controller.ScenarioFirstRun | script.js:199-230 | a fresh start, a click at (40.0, -73.0) and a running form of 4.2 mi in 42 min give one stored record there with pace 10.0 |

## Left out

- Rendering (`_renderWorkout`, `_renderWorkoutMarker`, `_showForm` / `_hideForm` DOM work, `_toggleElevationField`): UI only. The `toFixed(1)` formatting is float-to-text conversion.
- Leaflet (`_loadMap`, `setView`, markers, popups) and geolocation (`_getPosition`): external library and asynchronous browser API. A list click is modelled as producing the coordinates to centre on. If geolocation failed, `#map` is undefined and `setView` would throw; the model does not represent that.
- `JSON.stringify` / `JSON.parse` and `localStorage`: the slot holds the sequence itself, so a save followed by a restore is the identity. In the code, restored records are plain objects without methods, and their `date` field comes back as a string. The model keeps no `date` field, and `Click` applies to any record.
- Controller.RunStaysInSync: assumes every `localStorage.setItem` (script.js:356) succeeds and that `JSON.stringify` / `JSON.parse` give the collection back exactly. If `setItem` throws (quota exceeded, storage disabled), `_newWorkout` has already pushed the record, so memory runs ahead of storage. A non-finite pace or speed would come back as `null`. Neither failure is modelled, so the invariant covers only successful writes.
- `location.reload()`: modelled as start-up from the current storage slot.
- Text-to-number conversion (`+input.value`): the form arrives already converted to JavaScript numbers. An empty field converts to the finite value 0, so an empty elevation passes the cycling check.
- Deriving month and day from `new Date()` (time zones, calendars): the clock reading supplies them directly.
- The case where `type` is neither 'running' nor 'cycling', which would push `undefined`: the two-variant `WorkoutType` rules it out.
- Workouts.Pace: requires a non-zero distance. The code would produce Infinity or NaN there, which exact reals cannot hold. Validation rejects such input before construction.
- Workouts.Speed: requires a non-zero duration, for the same reason.
- Workouts.NewRunning: requires a non-zero distance (see `Pace`). IEEE rounding of the division is not modelled.
- Workouts.NewCycling: requires a non-zero duration (see `Speed`). IEEE rounding of the division is not modelled.
- Workouts.Click: the count is an unbounded natural number. JavaScript numbers lose integer precision above 2^53. No code calls `click()` (the call at script.js:349 is commented out).
- Workouts.ToUpper: covers ASCII letters only, which is all the two type names contain.
