/**
 * The collection logic of the `App` class: the in-memory `#workouts`
 * sequence, the coordinates of the last map click (`#mapEvent`), the
 * `'workouts'` slot of localStorage, and the event handlers that change
 * them. Rendering, the map and geolocation are not modelled; only their
 * effect on this state is.
 */
module Controller {
  import opened Wrappers
  import opened Decimal
  import opened Workouts
  import opened Validation

  /** The submitted form: the selected type and the four numeric fields after `+input.value`. */
  datatype Form = Form(kind: WorkoutType, distance: JsNumber, duration: JsNumber,
                       cadence: JsNumber, elevation: JsNumber)

  /** One reading of the clock: `Date.now()` in milliseconds and the month and day of `new Date()`. */
  datatype Clock = Clock(now: nat, month: Month, day: Day)

  /** `#workouts` and the coordinates of `#mapEvent` (None before the first map click). */
  datatype App = App(workouts: seq<Workout>, mapEvent: Option<Coords>)

  /** The `'workouts'` localStorage slot: absent, or the stored collection. */
  type Store = Option<seq<Workout>>

  /** Everything that survives between events: the running app and the storage slot. */
  datatype Session = Session(app: App, store: Store)

  // ---------------------------------------------------------------------
  // Submitting the form (`_newWorkout`)
  // ---------------------------------------------------------------------

  /** The validation branch `_newWorkout` takes for the form's type. */
  predicate Accepted(f: Form) {
    match f.kind
    case RunningType => RunningAccepted(f.distance, f.duration, f.cadence)
    case CyclingType => CyclingAccepted(f.distance, f.duration, f.elevation)
  }

  /** `w` is the record the form describes, created at `at` and read off `clock`. */
  predicate Records(w: Workout, f: Form, at: Coords, clock: Clock) {
    && w.Type() == f.kind
    && w.coords == at
    && w.id == TimestampId(clock.now)
    && w.clicks == 0
    && Finite(w.distance) == f.distance
    && Finite(w.duration) == f.duration
    && (w.Running? ==> Finite(w.cadence) == f.cadence && w.pace * w.distance == w.duration)
    && (w.Cycling? ==> Finite(w.elevationGain) == f.elevation && w.speed * w.duration == 60.0 * w.distance)
    && w.description == Description(Label(f.kind, clock.month, clock.day))
  }

  /** `before` followed by exactly one more record. */
  predicate AppendedOne(before: seq<Workout>, after: seq<Workout>) {
    |after| == |before| + 1 && after[..|before|] == before
  }

  /** `new Running([lat, lng], distance, duration, cadence)` for an accepted running form. */
  function BuildRunning(f: Form, at: Coords, clock: Clock): (w: Workout)
    requires f.kind == RunningType && RunningAccepted(f.distance, f.duration, f.cadence)
    ensures Records(w, f, at, clock)
  {
    var distance, duration, cadence := f.distance.value, f.duration.value, f.cadence.value;
    NewRunning(TimestampId(clock.now), at, distance, duration, cadence, clock.month, clock.day)
  }

  /** `new Cycling([lat, lng], distance, duration, elevation)` for an accepted cycling form. */
  function BuildCycling(f: Form, at: Coords, clock: Clock): (w: Workout)
    requires f.kind == CyclingType && CyclingAccepted(f.distance, f.duration, f.elevation)
    ensures Records(w, f, at, clock)
  {
    var distance, duration, elevation := f.distance.value, f.duration.value, f.elevation.value;
    NewCycling(TimestampId(clock.now), at, distance, duration, elevation, clock.month, clock.day)
  }

  /** The `new Running(...)` / `new Cycling(...)` call of an accepted form. */
  function Build(f: Form, at: Coords, clock: Clock): (w: Workout)
    requires Accepted(f)
    ensures Records(w, f, at, clock)
  {
    match f.kind
    case RunningType => BuildRunning(f, at, clock)
    case CyclingType => BuildCycling(f, at, clock)
  }

  /**
   * How a submission ends: a record was pushed; the alert 'Inputs have to
   * be positive numbers!' was shown; or `this.#mapEvent.latlng` threw
   * because the map was never clicked.
   */
  datatype Outcome = Added | InvalidInputs | NoMapSelection

  datatype Submitted = Submitted(app: App, outcome: Outcome)

  /** `_newWorkout` up to the push. */
  function Submit(app: App, f: Form, clock: Clock): (r: Submitted)
    ensures r.outcome == Added <==> app.mapEvent.Some? && Accepted(f)
    ensures r.outcome == NoMapSelection <==> app.mapEvent.None?
    ensures r.outcome != Added ==> r.app == app
    ensures r.app.mapEvent == app.mapEvent
    ensures r.outcome == Added ==>
              && AppendedOne(app.workouts, r.app.workouts)
              && Records(r.app.workouts[|app.workouts|], f, app.mapEvent.value, clock)
  {
    match app.mapEvent
    case None => Submitted(app, NoMapSelection)
    case Some(at) =>
      if !Accepted(f) then Submitted(app, InvalidInputs)
      else
        var ws := app.workouts + [Build(f, at, clock)];
        assert ws[..|app.workouts|] == app.workouts;
        Submitted(app.(workouts := ws), Added)
  }

  // ---------------------------------------------------------------------
  // Clicking a list entry (`_moveToPopup`)
  // ---------------------------------------------------------------------

  /** `#workouts.find(work => work.id === id)`, as the index of the match. */
  function FindIndex(ws: seq<Workout>, id: string): (r: Option<nat>)
    ensures r.Some? ==> r.value < |ws| && ws[r.value].id == id
    ensures r.Some? ==> forall j :: 0 <= j < r.value ==> ws[j].id != id
    ensures r.None? ==> forall j :: 0 <= j < |ws| ==> ws[j].id != id
  {
    if |ws| == 0 then None
    else if ws[0].id == id then Some(0)
    else match FindIndex(ws[1..], id)
      case None => None
      case Some(i) => Some(i + 1)
  }

  /**
   * What a click in the list does: nothing outside an entry; re-centre the
   * map on the found workout; or, with no workout of that id, the
   * `workout.coords` access throws.
   */
  datatype Popup = Ignored | CenterOn(coords: Coords) | MissingWorkout

  function MoveToPopup(app: App, clicked: Option<string>): (r: Popup)
    ensures clicked.None? <==> r == Ignored
    ensures r == MissingWorkout <==>
              clicked.Some? && forall j :: 0 <= j < |app.workouts| ==> app.workouts[j].id != clicked.value
    ensures r.CenterOn? ==>
              exists i :: && 0 <= i < |app.workouts|
                          && app.workouts[i].id == clicked.value
                          && app.workouts[i].coords == r.coords
                          && forall j :: 0 <= j < i ==> app.workouts[j].id != clicked.value
  {
    match clicked
    case None => Ignored
    case Some(id) =>
      match FindIndex(app.workouts, id)
      case None => MissingWorkout
      case Some(i) => CenterOn(app.workouts[i].coords)
  }

  // ---------------------------------------------------------------------
  // Storage, start-up, delete and reset
  // ---------------------------------------------------------------------

  /** `_getLocalStorage`: the stored collection if the slot is present, else the initial `[]`. */
  function Restore(store: Store): (ws: seq<Workout>)
    ensures store.Some? ==> ws == store.value
    ensures store.None? ==> ws == []
  {
    match store
    case None => []
    case Some(data) => data
  }

  /** The storage slot holds what the app shows: a reload would bring back the same collection. */
  predicate InSync(s: Session) {
    Restore(s.store) == s.app.workouts
  }

  /** `new App()` (also what `location.reload()` leads to): no map click yet, collection from storage. */
  function Start(store: Store): (s: Session)
    ensures InSync(s) && s.store == store
    ensures s.app.mapEvent.None?
    ensures store.Some? ==> s.app.workouts == store.value
    ensures store.None? ==> s.app.workouts == []
  {
    Session(App(Restore(store), None), store)
  }

  /** `_showForm`: remember where the map was clicked. */
  function OnMapClick(s: Session, at: Coords): (r: Session)
    ensures r.app.mapEvent == Some(at)
    ensures r.app.workouts == s.app.workouts && r.store == s.store
  {
    s.(app := s.app.(mapEvent := Some(at)))
  }

  /** `_newWorkout` including the final `_setLocalStorage`. */
  function OnSubmit(s: Session, f: Form, clock: Clock): (r: Session)
    ensures Submit(s.app, f, clock).outcome != Added ==> r == s
    ensures Submit(s.app, f, clock).outcome == Added ==>
              r.app == Submit(s.app, f, clock).app && r.store == Some(r.app.workouts)
    ensures InSync(s) ==> InSync(r)
  {
    var sub := Submit(s.app, f, clock);
    if sub.outcome == Added then Session(sub.app, Some(sub.app.workouts)) else s
  }

  /** `Array.prototype.pop` for its effect on the array: drop the last element, if any. */
  function Pop(ws: seq<Workout>): (r: seq<Workout>)
    ensures |ws| > 0 ==> r + [ws[|ws| - 1]] == ws
    ensures |ws| == 0 ==> r == []
  {
    if |ws| == 0 then [] else ws[..|ws| - 1]
  }

  /** `delete()`: pop, store the rest, reload. */
  function OnDelete(s: Session): (r: Session)
    ensures r.store == Some(r.app.workouts)
    ensures |s.app.workouts| > 0 ==> r.app.workouts + [s.app.workouts[|s.app.workouts| - 1]] == s.app.workouts
    ensures |s.app.workouts| == 0 ==> r.app.workouts == []
    ensures r.app.mapEvent.None?
  {
    Start(Some(Pop(s.app.workouts)))
  }

  /** `reset()`: remove the slot, reload. */
  function OnReset(s: Session): (r: Session)
    ensures r.store.None? && r.app.workouts == [] && r.app.mapEvent.None?
  {
    Start(None)
  }

  // ---------------------------------------------------------------------
  // Whole sessions
  // ---------------------------------------------------------------------

  /** The user events the app reacts to. A list click changes no state. */
  datatype Event =
    | MapClick(at: Coords)
    | SubmitForm(form: Form, clock: Clock)
    | ListClick(clicked: Option<string>)
    | DeleteLast
    | ResetAll

  /** The handler each event is wired to in the `App` constructor. */
  function Step(s: Session, e: Event): (r: Session)
    ensures e.ListClick? ==> r == s
    ensures !e.SubmitForm? ==> |r.app.workouts| <= |s.app.workouts|
    ensures |r.app.workouts| <= |s.app.workouts| + 1
    ensures InSync(s) ==> InSync(r)
  {
    match e
    case MapClick(at) => OnMapClick(s, at)
    case SubmitForm(f, clock) => OnSubmit(s, f, clock)
    case ListClick(_) => s
    case DeleteLast => OnDelete(s)
    case ResetAll => OnReset(s)
  }

  /** The session after handling `events` in order; the collection grows by at most one record per event. */
  function Run(s: Session, events: seq<Event>): (r: Session)
    ensures |r.app.workouts| <= |s.app.workouts| + |events|
    decreases |events|
  {
    if |events| == 0 then s else Run(Step(s, events[0]), events[1..])
  }

  /** From any start-up, every sequence of events keeps storage and memory in step. */
  lemma {:induction false} RunStaysInSync(s: Session, events: seq<Event>)
    requires InSync(s)
    ensures InSync(Run(s, events))
    decreases |events|
  {
    if |events| > 0 {
      RunStaysInSync(Step(s, events[0]), events[1..]);
    }
  }

  /** Submitting the same valid form twice, at clock readings less than 10^10 ms apart, gives two records with different ids. */
  lemma SubmitTwiceDistinctIds(app: App, f: Form, c1: Clock, c2: Clock)
    requires app.mapEvent.Some? && Accepted(f)
    requires c1.now != c2.now && c1.now < c2.now + Pow10(10) && c2.now < c1.now + Pow10(10)
    ensures var a1 := Submit(app, f, c1).app;
            var a2 := Submit(a1, f, c2).app;
            && |a2.workouts| == |app.workouts| + 2
            && a2.workouts[|app.workouts|].id != a2.workouts[|app.workouts| + 1].id
  {
    var a1 := Submit(app, f, c1).app;
    var a2 := Submit(a1, f, c2).app;
    assert a2.workouts[..|a1.workouts|] == a1.workouts;
    assert a2.workouts[|app.workouts|] == a1.workouts[|app.workouts|];
    TimestampIdsDistinct(c1.now, c2.now);
  }

  /** A fresh start, a map click at (40.0, -73.0) and a running form 4.2 mi / 42 min / 170 spm yield one record with pace 10.0 there. */
  lemma ScenarioFirstRun(clock: Clock)
    ensures var s := OnSubmit(OnMapClick(Start(None), Coords(40.0, -73.0)),
                              Form(RunningType, Finite(4.2), Finite(42.0), Finite(170.0), Finite(0.0)), clock);
            && |s.app.workouts| == 1
            && s.app.workouts[0].Running?
            && s.app.workouts[0].pace == 10.0
            && s.app.workouts[0].coords == Coords(40.0, -73.0)
            && s.store == Some(s.app.workouts)
  {
  }
}
