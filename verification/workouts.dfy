/**
 * Workout records: the `Workout` base class and its `Running` and `Cycling`
 * subclasses, as one two-variant datatype built by pure constructor
 * functions. Arithmetic is exact (`real`), not IEEE double precision.
 */
module Workouts {
  import opened Wrappers
  import opened Decimal

  /** A `[lat, lng]` pair. */
  datatype Coords = Coords(lat: real, lng: real)

  /** The `type` discriminator of the two subclasses. */
  datatype WorkoutType = RunningType | CyclingType

  /** `Date.prototype.getMonth()`: 0 is January. */
  type Month = m: int | 0 <= m < 12

  /** `Date.prototype.getDate()`: the day of the month. */
  type Day = d: int | 1 <= d <= 31 witness 1

  /** What a description says: the workout type and the creation month and day. */
  datatype Label = Label(kind: WorkoutType, month: Month, day: Day)

  /**
   * A workout as its constructor leaves it. `pace` (running) and `speed`
   * (cycling) are stored fields, computed once at construction.
   */
  datatype Workout =
    | Running(id: string, coords: Coords, distance: real, duration: real, clicks: nat,
              description: string, cadence: real, pace: real)
    | Cycling(id: string, coords: Coords, distance: real, duration: real, clicks: nat,
              description: string, elevationGain: real, speed: real)
  {
    function Type(): WorkoutType {
      if Running? then RunningType else CyclingType
    }
  }

  /** The string value of the `type` class field. */
  function TypeName(t: WorkoutType): string {
    match t
    case RunningType => "running"
    case CyclingType => "cycling"
  }

  const Months: seq<string> :=
    ["January", "February", "March", "April", "May", "June", "July",
     "August", "September", "October", "November", "December"]

  /** `toUpperCase` on the ASCII letters the type names use. */
  function ToUpper(c: char): char {
    if 'a' <= c <= 'z' then (c as int - 32) as char else c
  }

  /** First character upper-cased, the rest unchanged. */
  function Capitalize(s: string): string
    requires |s| > 0
  {
    [ToUpper(s[0])] + s[1..]
  }

  /** The literal text a description of each type starts with. */
  function Prefix(kind: WorkoutType): (p: string)
    ensures |p| == 11
  {
    if kind == RunningType then "Running on " else "Cycling on "
  }

  /**
   * `_setDescription`: the type name with its first letter upper-cased,
   * " on ", the month's English name, a space and the day.
   */
  function Description(l: Label): (s: string)
    ensures |s| > 11 && s[..11] == Prefix(l.kind)
    ensures HasSuffix(s, " " + NatToString(l.day))
  {
    var s := Capitalize(TypeName(l.kind)) + " on " + Months[l.month] + " " + NatToString(l.day);
    assert s[..11] == Capitalize(TypeName(l.kind)) + " on ";
    assert s[|s| - |NatToString(l.day)| - 1..] == " " + NatToString(l.day);
    s
  }

  // ---------------------------------------------------------------------
  // Reading a description back. This parser is written independently of
  // Description (literal type names, a month-name lookup, digit parsing),
  // so the round-trip lemmas below say that descriptions are unambiguous.
  // ---------------------------------------------------------------------

  predicate HasPrefix(s: string, p: string) {
    |p| <= |s| && s[..|p|] == p
  }

  predicate HasSuffix(s: string, p: string) {
    |p| <= |s| && s[|s| - |p|..] == p
  }

  /** Position of the first space in `s`, if any. */
  function IndexOfSpace(s: string): (r: Option<nat>)
    ensures r.Some? ==> r.value < |s| && s[r.value] == ' '
    ensures r.Some? ==> forall j :: 0 <= j < r.value ==> s[j] != ' '
    ensures r.None? ==> forall j :: 0 <= j < |s| ==> s[j] != ' '
  {
    if |s| == 0 then None
    else if s[0] == ' ' then Some(0)
    else match IndexOfSpace(s[1..])
      case None => None
      case Some(i) => Some(i + 1)
  }

  /** `months.indexOf(name)`: the month index of a full English month name. */
  function MonthIndex(name: string): (r: Option<Month>)
    ensures r.Some? ==> Months[r.value] == name
  {
    if name == "January" then Some(0)
    else if name == "February" then Some(1)
    else if name == "March" then Some(2)
    else if name == "April" then Some(3)
    else if name == "May" then Some(4)
    else if name == "June" then Some(5)
    else if name == "July" then Some(6)
    else if name == "August" then Some(7)
    else if name == "September" then Some(8)
    else if name == "October" then Some(9)
    else if name == "November" then Some(10)
    else if name == "December" then Some(11)
    else None
  }

  /** Reads "<Month> <day>" following the type prefix. */
  function ParseDate(kind: WorkoutType, rest: string): Option<Label> {
    match IndexOfSpace(rest)
    case None => None
    case Some(i) =>
      var name, digits := rest[..i], rest[i + 1..];
      match MonthIndex(name)
      case None => None
      case Some(m) =>
        if Canonical(digits) && 1 <= ParseDigits(digits) <= 31
        then Some(Label(kind, m, ParseDigits(digits)))
        else None
  }

  function ParseDescription(s: string): Option<Label> {
    if HasPrefix(s, "Running on ") then ParseDate(RunningType, s[11..])
    else if HasPrefix(s, "Cycling on ") then ParseDate(CyclingType, s[11..])
    else None
  }

  lemma MonthNameFacts(m: Month)
    ensures MonthIndex(Months[m]) == Some(m)
    ensures forall j :: 0 <= j < |Months[m]| ==> Months[m][j] != ' '
  {
  }

  lemma ParsePrefix(kind: WorkoutType, rest: string)
    ensures ParseDescription(Prefix(kind) + rest) == ParseDate(kind, rest)
  {
    var s := Prefix(kind) + rest;
    assert s[..11] == Prefix(kind) && s[11..] == rest;
  }

  lemma ParseDateRoundTrip(kind: WorkoutType, m: Month, d: Day)
    ensures ParseDate(kind, Months[m] + " " + NatToString(d)) == Some(Label(kind, m, d))
  {
    var name, digits := Months[m], NatToString(d);
    var rest := name + " " + digits;
    MonthNameFacts(m);
    assert rest[|name|] == ' ';
    assert forall j :: 0 <= j < |name| ==> rest[j] != ' ';
    assert IndexOfSpace(rest) == Some(|name|);
    assert rest[..|name|] == name && rest[|name| + 1..] == digits;
    ParseNatToString(d);
  }

  lemma DescriptionSplits(l: Label)
    ensures Description(l) == Prefix(l.kind) + (Months[l.month] + " " + NatToString(l.day))
  {
  }

  /** Every description reads back as the label it was built from. */
  lemma DescriptionRoundTrip(l: Label)
    ensures ParseDescription(Description(l)) == Some(l)
  {
    var rest := Months[l.month] + " " + NatToString(l.day);
    DescriptionSplits(l);
    ParsePrefix(l.kind, rest);
    ParseDateRoundTrip(l.kind, l.month, l.day);
  }

  lemma ParseDateSound(kind: WorkoutType, rest: string, l: Label)
    requires ParseDate(kind, rest) == Some(l)
    ensures l.kind == kind && Months[l.month] + " " + NatToString(l.day) == rest
  {
    var i := IndexOfSpace(rest).value;
    var name, digits := rest[..i], rest[i + 1..];
    assert Months[l.month] == name;
    NatToStringOfParse(digits);
    assert rest == name + " " + digits;
  }

  /** Conversely, whatever reads as a label is exactly that label's description. */
  lemma ParsedDescriptionIsDescription(s: string, l: Label)
    requires ParseDescription(s) == Some(l)
    ensures Description(l) == s
  {
    var kind := if HasPrefix(s, "Running on ") then RunningType else CyclingType;
    assert s[..11] == Prefix(kind);
    ParseDateSound(kind, s[11..], l);
    assert s == Prefix(kind) + s[11..];
    DescriptionSplits(l);
  }

  /** Distinct labels give distinct descriptions. */
  lemma DescriptionInjective(l1: Label, l2: Label)
    ensures Description(l1) == Description(l2) <==> l1 == l2
  {
    DescriptionRoundTrip(l1);
    DescriptionRoundTrip(l2);
  }

  // ---------------------------------------------------------------------
  // Derived metrics and construction
  // ---------------------------------------------------------------------

  /** `Running.calcPace`: minutes per mile. */
  function Pace(distance: real, duration: real): (pace: real)
    requires distance != 0.0
    ensures pace * distance == duration
    ensures distance > 0.0 && duration > 0.0 ==> pace > 0.0
  {
    duration / distance
  }

  /** `Cycling.calcSpeed`: miles per hour from minutes. */
  function Speed(distance: real, duration: real): (speed: real)
    requires duration != 0.0
    ensures speed * duration == 60.0 * distance
    ensures distance > 0.0 && duration > 0.0 ==> speed > 0.0
  {
    distance / (duration / 60.0)
  }

  /** `new Running(coords, distance, duration, cadence)` at a given id and date. */
  function NewRunning(id: string, coords: Coords, distance: real, duration: real, cadence: real,
                      month: Month, day: Day): (w: Workout)
    requires distance != 0.0
    ensures w.Running? && w.Type() == RunningType
    ensures w.id == id && w.coords == coords && w.distance == distance && w.duration == duration
    ensures w.cadence == cadence && w.clicks == 0
    ensures w.pace * w.distance == w.duration
    ensures w.description == Description(Label(RunningType, month, day))
  {
    var l := Label(RunningType, month, day);
    var pace := Pace(distance, duration);
    Running(id, coords, distance, duration, 0, Description(l), cadence, pace)
  }

  /** `new Cycling(coords, distance, duration, elevationGain)` at a given id and date. */
  function NewCycling(id: string, coords: Coords, distance: real, duration: real, elevationGain: real,
                      month: Month, day: Day): (w: Workout)
    requires duration != 0.0
    ensures w.Cycling? && w.Type() == CyclingType
    ensures w.id == id && w.coords == coords && w.distance == distance && w.duration == duration
    ensures w.elevationGain == elevationGain && w.clicks == 0
    ensures w.speed * w.duration == 60.0 * w.distance
    ensures w.description == Description(Label(CyclingType, month, day))
  {
    var l := Label(CyclingType, month, day);
    var speed := Speed(distance, duration);
    Cycling(id, coords, distance, duration, 0, Description(l), elevationGain, speed)
  }

  /** `click()`: one more click, every other field as it was. */
  function Click(w: Workout): (r: Workout)
    ensures r.clicks == w.clicks + 1
    ensures r.(clicks := w.clicks) == w
  {
    w.(clicks := w.clicks + 1)
  }

  /** Applying `click()` n times adds n clicks and changes nothing else. */
  function ClickTimes(w: Workout, n: nat): Workout
    decreases n
  {
    if n == 0 then w else Click(ClickTimes(w, n - 1))
  }

  lemma {:induction false} ClickTimesCounts(w: Workout, n: nat)
    ensures ClickTimes(w, n).clicks == w.clicks + n
    ensures ClickTimes(w, n).(clicks := w.clicks) == w
    decreases n
  {
    if n > 0 {
      ClickTimesCounts(w, n - 1);
    }
  }

  /** `slice(-k)`: the last k characters, or the whole string when it is shorter. */
  function TakeLast(s: string, k: nat): (r: string)
    ensures |r| == (if |s| <= k then |s| else k)
  {
    if |s| <= k then s else s[|s| - k..]
  }

  /** `(Date.now() + '').slice(-10)`: the last ten characters of the millisecond clock's decimal text. */
  function TimestampId(now: nat): (id: string)
    ensures |id| <= 10 && AllDigits(id)
    ensures ParseDigits(id) == now % Pow10(10)
  {
    var s := NatToString(now);
    ParseNatToString(now);
    if |s| <= 10 then
      Pow10Monotone(|s|, 10);
      TakeLast(s, 10)
    else
      ParseDigitsSuffix(s, 10);
      TakeLast(s, 10)
  }

  /**
   * The id is the text `slice(-10)` keeps, leading zeros included: the
   * whole numeral when it has fewer than ten digits, its last ten otherwise.
   */
  lemma TimestampIdText(now: nat)
    ensures var s, id := NatToString(now), TimestampId(now);
            && |id| == (if |s| < 10 then |s| else 10)
            && id == s[|s| - |id|..]
  {
  }

  /** Clock readings less than 10^10 ms (about 115 days) apart give different ids. */
  lemma TimestampIdsDistinct(now1: nat, now2: nat)
    requires now1 != now2 && now1 < now2 + Pow10(10) && now2 < now1 + Pow10(10)
    ensures TimestampId(now1) != TimestampId(now2)
  {
    if TimestampId(now1) == TimestampId(now2) {
      ModWindow(now1, now2, Pow10(10));
    }
  }
}
