/**
  The horizon-gazing exercise: a focus dot driven by device attitude, a target band it should stay
  in, a stability score, a coarse pose classification, a three-minute exercise clock and a
  one-second calibration ramp.

  The pure part (mapping, clamping, scores, thresholds, formatting) comes first; the class
  `HorizonGazeView` then holds the screen's state variables and the handlers that update them.
  Screen width and height are the `UIScreen` bounds, taken as positive reals. Attitude and gravity
  readings come from the motion manager and are parameters here. Calls into the motion manager
  are recorded in order; what they do inside that manager is not part of this model.
*/
module HorizonGaze {

  import opened Wrappers
  import opened Palette
  import opened Geometry
  import opened Orientation

  /** Length of one exercise, in one-second timer ticks (`recommendedDuration`). */
  const RecommendedDuration: nat := 180
  /** Height of the green band (`targetZoneHeight`). */
  const TargetZoneHeight: real := 120.0
  /** How far above the band the dot may travel (`upwardExtension`). */
  const UpwardExtension: real := 40.0
  /** Screen points per radian, for both yaw and pitch. */
  const Sensitivity: real := 250.0
  /** The calibration ramp adds 0.1 per tick until it reaches 1.0: ten steps. */
  const CalibrationSteps: nat := 10
  /** `focusColors`: blue, cyan and white. */
  const FocusColors: seq<Tint> := [Blue, Cyan, White]

  function Max(a: real, b: real): real { if a >= b then a else b }

  function Min(a: real, b: real): real { if a <= b then a else b }

  function Abs(x: real): real { if x < 0.0 then -x else x }

  /** `max(lo, min(hi, v))`, the clamp used for both coordinates of the dot. */
  function Clamp(v: real, lo: real, hi: real): (r: real)
    ensures lo <= hi ==> lo <= r <= hi
    ensures lo <= v <= hi ==> r == v
    ensures v < lo ==> r == lo
    ensures lo <= hi < v ==> r == hi
  {
    Max(lo, Min(hi, v))
  }

  lemma ClampIsMonotone(a: real, b: real, lo: real, hi: real)
    requires a <= b
    ensures Clamp(a, lo, hi) <= Clamp(b, lo, hi)
  {
  }

  // ---------------------------------------------------------------------------------------------
  // Screen geometry

  /** `centerY`: the vertical centre of the screen. */
  function CenterY(h: real): real { h * 0.5 }

  function TargetZoneTop(h: real): real { CenterY(h) - TargetZoneHeight / 2.0 }

  function TargetZoneBottom(h: real): real { CenterY(h) + TargetZoneHeight / 2.0 }

  /** `isInTargetZone`: the closed range `targetZone` contains y. */
  predicate InTargetZone(y: real, h: real)
  {
    TargetZoneTop(h) <= y <= TargetZoneBottom(h)
  }

  /** The band is the closed interval of half-height 60 around the screen's vertical centre. */
  lemma TargetZoneIsBandAroundCentre(y: real, h: real)
    ensures InTargetZone(y, h) <==> Abs(y - CenterY(h)) <= TargetZoneHeight / 2.0
    ensures InTargetZone(CenterY(h), h)
  {
  }

  function GreenZoneWidth(w: real): real { w * 0.8 }

  function GreenZoneLeft(w: real): real { (w - GreenZoneWidth(w)) / 2.0 }

  function GreenZoneRight(w: real): real { GreenZoneLeft(w) + GreenZoneWidth(w) }

  function MinY(h: real): real { CenterY(h) - TargetZoneHeight - UpwardExtension }

  function MaxY(h: real): real { h * 0.85 }

  /** The rectangle the focus dot is confined to. */
  predicate InMovementArea(p: Point, w: real, h: real)
  {
    GreenZoneLeft(w) <= p.x <= GreenZoneRight(w) && MinY(h) <= p.y <= MaxY(h)
  }

  /** The dot position before clamping: yaw moves it right, pitch (inverted) moves it up. */
  function RawFocus(yaw: real, pitch: real, w: real, h: real): Point
  {
    Point(w / 2.0 + yaw * Sensitivity, CenterY(h) - pitch * Sensitivity)
  }

  /** The position `updateFocusPoint` computes from the current yaw and pitch. */
  function MapFocus(yaw: real, pitch: real, w: real, h: real): (p: Point)
    requires w > 0.0 && h > 0.0
    ensures InMovementArea(p, w, h)
    ensures 0.1 * w <= p.x <= 0.9 * w && h / 2.0 - 160.0 <= p.y <= 0.85 * h
    ensures InMovementArea(RawFocus(yaw, pitch, w, h), w, h) ==> p == RawFocus(yaw, pitch, w, h)
  {
    var raw := RawFocus(yaw, pitch, w, h);
    Point(Clamp(raw.x, GreenZoneLeft(w), GreenZoneRight(w)), Clamp(raw.y, MinY(h), MaxY(h)))
  }

  /** Turning right never moves the dot left; tilting up never moves it down (y grows downwards). */
  lemma MapFocusIsMonotone(yaw1: real, yaw2: real, pitch1: real, pitch2: real, w: real, h: real)
    requires w > 0.0 && h > 0.0
    requires yaw1 <= yaw2 && pitch1 <= pitch2
    ensures MapFocus(yaw1, pitch1, w, h).x <= MapFocus(yaw2, pitch2, w, h).x
    ensures MapFocus(yaw2, pitch2, w, h).y <= MapFocus(yaw1, pitch1, w, h).y
  {
    ClampIsMonotone(RawFocus(yaw1, pitch1, w, h).x, RawFocus(yaw2, pitch2, w, h).x, GreenZoneLeft(w), GreenZoneRight(w));
    ClampIsMonotone(RawFocus(yaw2, pitch2, w, h).y, RawFocus(yaw1, pitch1, w, h).y, MinY(h), MaxY(h));
  }

  /** x depends on yaw alone and y on pitch alone. */
  lemma MapFocusAxesIndependent(yaw1: real, yaw2: real, pitch1: real, pitch2: real, w: real, h: real)
    requires w > 0.0 && h > 0.0
    ensures MapFocus(yaw1, pitch1, w, h).x == MapFocus(yaw1, pitch2, w, h).x
    ensures MapFocus(yaw1, pitch1, w, h).y == MapFocus(yaw2, pitch1, w, h).y
  {
  }

  /** The centre of the green rectangle, where setup, start and stop put the dot. */
  function GreenZoneCentre(w: real, h: real): (c: Point)
    requires w > 0.0 && h > 0.0
    ensures c == Point(w / 2.0, h / 2.0)
    ensures c == MapFocus(0.0, 0.0, w, h)
    ensures InMovementArea(c, w, h) && InTargetZone(c.y, h)
  {
    var zoneWidth := GreenZoneWidth(w);
    Point((w - zoneWidth) / 2.0 + zoneWidth / 2.0, CenterY(h))
  }

  // ---------------------------------------------------------------------------------------------
  // Stability score and pose

  /** Closeness of the dot to the screen's vertical centre: 100 at the centre, 0 beyond the band. */
  function PositionScore(y: real, h: real): (score: real)
    ensures 0.0 <= score <= 100.0
    ensures score == 100.0 <==> y == CenterY(h)
    ensures score > 0.0 <==> Abs(y - CenterY(h)) < TargetZoneHeight / 2.0
  {
    var distanceFromCenter := Abs(y - CenterY(h));
    var maxDistance := TargetZoneHeight / 2.0;
    Max(0.0, 100.0 - distanceFromCenter / maxDistance * 100.0)
  }

  /** Steadiness of the roll signal: 100 when level, 0 from one radian on. */
  function MotionScore(roll: real): (score: real)
    ensures 0.0 <= score <= 100.0
    ensures score == 100.0 <==> roll == 0.0
    ensures score > 0.0 <==> Abs(roll) < 1.0
  {
    Max(0.0, 100.0 - Abs(roll) * 100.0)
  }

  /** `stabilityScore`: the mean of the two partial scores. */
  function StabilityScore(y: real, h: real, roll: real): (score: real)
    ensures 0.0 <= score <= 100.0
    ensures score == 100.0 <==> y == CenterY(h) && roll == 0.0
  {
    (PositionScore(y, h) + MotionScore(roll)) / 2.0
  }

  /** `isDeviceStable`. */
  predicate IsStable(score: real)
  {
    score > 80.0
  }

  /** A stable reading needs the dot well inside the band and the roll under 0.4 rad. */
  lemma StableOnlyNearCentre(y: real, h: real, roll: real)
    requires IsStable(StabilityScore(y, h, roll))
    ensures Abs(y - CenterY(h)) < 24.0 && Abs(roll) < 0.4
    ensures InTargetZone(y, h)
  {
    var p, m := PositionScore(y, h), MotionScore(roll);
    assert p > 60.0 && m > 60.0;
    assert 100.0 - Abs(y - CenterY(h)) / 60.0 * 100.0 > 60.0;
  }

  /** `updateDeviceOrientation`'s thresholds on the gravity vector's z component. */
  function Classify(z: real): (o: DeviceOrientation)
    ensures o != Tilted
    ensures o == EyeLevel <==> Abs(z) > 0.85
    ensures o == Vertical <==> Abs(z) < 0.45
    ensures o == Flat <==> 0.45 <= Abs(z) <= 0.85
  {
    if Abs(z) > 0.85 then EyeLevel
    else if Abs(z) < 0.45 then Vertical
    else Flat
  }

  lemma ClassifyBoundariesAndSign(z: real)
    ensures Classify(0.85) == Flat && Classify(-0.85) == Flat
    ensures Classify(0.45) == Flat && Classify(-0.45) == Flat
    ensures Classify(-z) == Classify(z)
  {
  }

  /** The orientation after `updateDeviceOrientation`: unchanged when no device-motion sample exists. */
  function NextOrientation(current: DeviceOrientation, gravityZ: Option<real>): (o: DeviceOrientation)
    ensures gravityZ.None? ==> o == current
    ensures gravityZ.Some? ==> o != Tilted && (o == EyeLevel <==> Abs(gravityZ.value) > 0.85)
  {
    match gravityZ
    case None => current
    case Some(z) => Classify(z)
  }

  // ---------------------------------------------------------------------------------------------
  // Visual feedback

  function DotOpacity(inZone: bool): (opacity: real)
    ensures 0.7 <= opacity <= 1.0
    ensures opacity == 1.0 <==> inZone
  {
    if inZone then 1.0 else 0.7
  }

  /** `currentColorIndex`: white inside the band, cyan when only stable, blue otherwise. */
  function ColorIndex(inZone: bool, stable: bool): (i: int)
    ensures 0 <= i < |FocusColors|
    ensures FocusColors[i] == White <==> inZone
    ensures FocusColors[i] == Cyan <==> !inZone && stable
  {
    if inZone then 2 else if stable then 1 else 0
  }

  // ---------------------------------------------------------------------------------------------
  // Text

  /** `timeString`'s minutes and seconds, with Swift's `/` and `%` (both truncate toward zero). */
  function TimeParts(seconds: int): (parts: (int, int))
    ensures parts.0 * 60 + parts.1 == seconds
    ensures seconds >= 0 ==> parts.0 >= 0 && 0 <= parts.1 < 60
    ensures seconds < 0 ==> parts.0 <= 0 && -60 < parts.1 <= 0
  {
    var minutes := if seconds >= 0 then seconds / 60 else -((-seconds) / 60);
    (minutes, seconds - minutes * 60)
  }

  function DigitChar(d: int): char
    requires 0 <= d < 10
  {
    (48 + d) as char
  }

  predicate IsDigit(c: char) { '0' <= c <= '9' }

  function DigitValue(c: char): int { c as int - 48 }

  /** Decimal digits of a natural number, without leading zeros. */
  function Decimal(n: nat): string
    decreases n
  {
    if n < 10 then [DigitChar(n)] else Decimal(n / 10) + [DigitChar(n % 10)]
  }

  /** `String(format: "%02d", n)`: at least two characters, zero-padded, with a sign if negative. */
  function Pad2(n: int): string
  {
    if n < 0 then "-" + Decimal(-n)
    else if n < 10 then "0" + Decimal(n)
    else Decimal(n)
  }

  /** `timeString(from:)`: "mm:ss". */
  function TimeString(seconds: int): string
  {
    var parts := TimeParts(seconds);
    Pad2(parts.0) + ":" + Pad2(parts.1)
  }

  /** Reads back an "mm:ss" label with seconds below 60. */
  function ParseClock(t: string): Option<int>
  {
    if |t| == 5 && IsDigit(t[0]) && IsDigit(t[1]) && t[2] == ':' && '0' <= t[3] <= '5' && IsDigit(t[4])
    then Some((10 * DigitValue(t[0]) + DigitValue(t[1])) * 60 + 10 * DigitValue(t[3]) + DigitValue(t[4]))
    else None
  }

  lemma TwoDigits(n: int)
    requires 0 <= n < 100
    ensures Pad2(n) == [DigitChar(n / 10), DigitChar(n % 10)]
  {
    if n >= 10 {
      assert Decimal(n / 10) == [DigitChar(n / 10)];
    }
  }

  /** Under 100 minutes the label is exactly five characters and reads back as the same count. */
  lemma {:induction false} ClockTextRoundTrip(seconds: int)
    requires 0 <= seconds < 6000
    ensures TimeString(seconds) == [DigitChar(seconds / 600), DigitChar(seconds / 60 % 10), ':',
                                    DigitChar(seconds % 60 / 10), DigitChar(seconds % 10)]
    ensures ParseClock(TimeString(seconds)) == Some(seconds)
  {
    var parts := TimeParts(seconds);
    var m, r := parts.0, parts.1;
    assert m == seconds / 60 && r == seconds % 60;
    TwoDigits(m);
    TwoDigits(r);
    var t := TimeString(seconds);
    assert t == [DigitChar(m / 10), DigitChar(m % 10), ':', DigitChar(r / 10), DigitChar(r % 10)];
  }

  /** Every label `ParseClock` accepts is the label of the count it reads. */
  lemma {:induction false} ClockTextParsesOnlyLabels(t: string, seconds: int)
    requires ParseClock(t) == Some(seconds)
    ensures 0 <= seconds < 6000 && TimeString(seconds) == t
  {
    var a, b, c, d := DigitValue(t[0]), DigitValue(t[1]), DigitValue(t[3]), DigitValue(t[4]);
    var m, r := 10 * a + b, 10 * c + d;
    assert seconds == m * 60 + r && 0 <= r < 60 && 0 <= m < 100;
    assert seconds / 60 == m && seconds % 60 == r;
    TwoDigits(m);
    TwoDigits(r);
    assert m / 10 == a && m % 10 == b && r / 10 == c && r % 10 == d;
    assert TimeString(seconds) == [DigitChar(a), DigitChar(b), ':', DigitChar(c), DigitChar(d)];
  }

  /** `getStepText`: the guide's four instructions, and "" for any other step. */
  function StepText(step: int): (text: string)
    ensures text != "" <==> 1 <= step <= 4
  {
    match step
    case 1 => "Hold your device at eye level"
    case 2 => "Focus on the white dot and keep it within the green zone"
    case 3 => "Follow the dot with your eyes, not your head"
    case 4 => "Continue for 3 minutes or until symptoms improve"
    case _ => ""
  }

  // ---------------------------------------------------------------------------------------------
  // Exercise clock: `isExerciseActive`, the duration timer handle, `exerciseDuration` and
  // `showExerciseComplete`, as one value.

  datatype ExerciseClock = ExerciseClock(active: bool, timerRunning: bool, duration: nat, complete: bool)

  ghost predicate ClockValid(c: ExerciseClock)
  {
    c.duration <= RecommendedDuration
    && (c.timerRunning ==> c.active && c.duration < RecommendedDuration)
  }

  /** `startExercise`: active, counter reset, a fresh timer replacing any old one. */
  function StartClock(c: ExerciseClock): ExerciseClock
  {
    ExerciseClock(true, true, 0, c.complete)
  }

  /** `stopExercise`: inactive, timer cleared, duration kept. */
  function StopClock(c: ExerciseClock): ExerciseClock
  {
    c.(active := false, timerRunning := false)
  }

  /** One firing of the duration timer: count a second and stop on reaching the recommended length. */
  function TickClock(c: ExerciseClock): ExerciseClock
    requires c.timerRunning
  {
    var c' := c.(duration := c.duration + 1);
    if c'.duration >= RecommendedDuration then StopClock(c').(complete := true) else c'
  }

  /** n firings, counting only those that happen while the timer is still scheduled. */
  function TickClockN(c: ExerciseClock, n: nat): ExerciseClock
    decreases n
  {
    if n == 0 || !c.timerRunning then c else TickClockN(TickClock(c), n - 1)
  }

  lemma ClockStepsKeepValid(c: ExerciseClock)
    ensures ClockValid(StartClock(c))
    ensures ClockValid(c) ==> ClockValid(StopClock(c))
    ensures ClockValid(c) && c.timerRunning ==> ClockValid(TickClock(c)) && TickClock(c).duration == c.duration + 1
  {
  }

  lemma StopIsIdempotent(c: ExerciseClock)
    ensures StopClock(StopClock(c)) == StopClock(c)
    ensures StopClock(c).duration == c.duration && !StopClock(c).active
  {
  }

  lemma {:induction false} TicksWhileRunning(c: ExerciseClock, n: nat)
    requires ClockValid(c) && c.timerRunning
    ensures var r := TickClockN(c, n);
      && ClockValid(r)
      && r.duration == (if c.duration + n < RecommendedDuration then c.duration + n else RecommendedDuration)
      && (r.timerRunning <==> c.duration + n < RecommendedDuration)
      && (r.active <==> c.duration + n < RecommendedDuration)
      && (r.complete <==> c.complete || c.duration + n >= RecommendedDuration)
    decreases n
  {
    if n > 0 {
      var c' := TickClock(c);
      if c'.timerRunning {
        TicksWhileRunning(c', n - 1);
      } else {
        assert TickClockN(c, n) == c';
      }
    }
  }

  /** From a start, exactly `RecommendedDuration` ticks end the exercise, and the count never passes it. */
  lemma ExerciseRunsExactlyRecommended(c: ExerciseClock, n: nat)
    ensures n < RecommendedDuration ==> TickClockN(StartClock(c), n) == ExerciseClock(true, true, n, c.complete)
    ensures n >= RecommendedDuration ==> TickClockN(StartClock(c), n) == ExerciseClock(false, false, RecommendedDuration, true)
  {
    TicksWhileRunning(StartClock(c), n);
  }

  // ---------------------------------------------------------------------------------------------
  // Calibration ramp: `calibrationMode`, `calibrationProgress` (as a count of 0.1 steps), the
  // calibration timer handle and `showCalibrationOverlay`, as one value.

  datatype CalibrationState = CalibrationState(mode: bool, ticks: nat, timerRunning: bool, overlay: bool)

  ghost predicate CalibrationValid(c: CalibrationState)
  {
    c.ticks <= CalibrationSteps
    && (c.timerRunning ==> c.mode && c.overlay && c.ticks < CalibrationSteps)
  }

  /** `startCalibration`: progress 0, overlay shown, a fresh timer replacing any running one. */
  const CalibrationStarted := CalibrationState(true, 0, true, true)

  /** `calibrationProgress`. */
  function CalibrationProgress(c: CalibrationState): (p: real)
    ensures c.ticks <= CalibrationSteps ==> 0.0 <= p <= 1.0
    ensures p == 1.0 <==> c.ticks == CalibrationSteps
  {
    c.ticks as real / CalibrationSteps as real
  }

  /** One firing of the calibration timer. */
  function TickCalibration(c: CalibrationState): CalibrationState
    requires c.timerRunning
  {
    if c.ticks < CalibrationSteps then
      var t := c.ticks + 1;
      if t >= CalibrationSteps then CalibrationState(false, t, false, false) else c.(ticks := t)
    else c
  }

  /** The firing on which the ramp completes and the motion manager is calibrated. */
  predicate CompletesCalibration(c: CalibrationState)
    requires c.timerRunning
  {
    !TickCalibration(c).timerRunning
  }

  function TickCalibrationN(c: CalibrationState, n: nat): CalibrationState
    decreases n
  {
    if n == 0 || !c.timerRunning then c else TickCalibrationN(TickCalibration(c), n - 1)
  }

  lemma {:induction false} CalibrationTicksWhileRunning(c: CalibrationState, n: nat)
    requires CalibrationValid(c) && c.timerRunning
    ensures var r := TickCalibrationN(c, n);
      && CalibrationValid(r)
      && (c.ticks + n < CalibrationSteps ==> r == c.(ticks := c.ticks + n))
      && (c.ticks + n >= CalibrationSteps ==> r == CalibrationState(false, CalibrationSteps, false, false))
    decreases n
  {
    if n > 0 {
      var c' := TickCalibration(c);
      if c'.timerRunning {
        CalibrationTicksWhileRunning(c', n - 1);
      } else {
        assert TickCalibrationN(c, n) == c';
      }
    }
  }

  /** The ramp finishes on its tenth tick, and exactly one tick completes it. */
  lemma CalibrationTakesTenTicks(n: nat)
    ensures n < CalibrationSteps ==> TickCalibrationN(CalibrationStarted, n) == CalibrationState(true, n, true, true)
    ensures n < CalibrationSteps ==> (CompletesCalibration(TickCalibrationN(CalibrationStarted, n)) <==> n == CalibrationSteps - 1)
    ensures n >= CalibrationSteps ==> TickCalibrationN(CalibrationStarted, n) == CalibrationState(false, CalibrationSteps, false, false)
  {
    CalibrationTicksWhileRunning(CalibrationStarted, n);
  }

  // ---------------------------------------------------------------------------------------------
  // Calls into the motion manager

  datatype MotionCall = StartMotionUpdates | StopMotionUpdates | Calibrate

  /** Whether the sensor feed is on after these calls: the last start or stop decides. */
  predicate SensorEngaged(log: seq<MotionCall>)
    decreases |log|
  {
    if log == [] then false
    else match log[|log| - 1]
      case StartMotionUpdates => true
      case StopMotionUpdates => false
      case Calibrate => SensorEngaged(log[..|log| - 1])
  }

  lemma {:induction false} SensorEngagedAfter(log: seq<MotionCall>, call: MotionCall)
    ensures call == StartMotionUpdates ==> SensorEngaged(log + [call])
    ensures call == StopMotionUpdates ==> !SensorEngaged(log + [call])
    ensures call == Calibrate ==> SensorEngaged(log + [call]) == SensorEngaged(log)
  {
    assert (log + [call])[..|log|] == log;
  }

  /** One sensor sample as the screen reads it: attitude, the roll signal, and gravity z if any. */
  datatype MotionReading = MotionReading(yaw: real, pitch: real, roll: real, gravityZ: Option<real>)

  // ---------------------------------------------------------------------------------------------

  class HorizonGazeView {
    const screenWidth: real
    const screenHeight: real

    var isExerciseActive: bool
    var focusPoint: Point
    var exerciseTimerRunning: bool
    var exerciseDuration: nat
    var showExerciseComplete: bool
    var deviceOrientation: DeviceOrientation
    var stabilityScore: real
    var isDeviceStable: bool
    var calibrationMode: bool
    var calibrationTicks: nat
    var calibrationTimerRunning: bool
    var showCalibrationOverlay: bool
    var dotOpacity: real
    var currentColorIndex: int
    var showGuide: bool
    var motionCalls: seq<MotionCall>

    function Clock(): ExerciseClock
      reads this
    {
      ExerciseClock(isExerciseActive, exerciseTimerRunning, exerciseDuration, showExerciseComplete)
    }

    function Calibration(): CalibrationState
      reads this
    {
      CalibrationState(calibrationMode, calibrationTicks, calibrationTimerRunning, showCalibrationOverlay)
    }

    /**
      What holds of the screen between any two statements: the ramp is consistent, the colour
      index is valid, the duration never passes the recommended length, the duration timer only
      runs while the sensor is on, and the sensor is only on while the exercise is active.
    */
    ghost predicate Consistent()
      reads this
    {
      && screenWidth > 0.0 && screenHeight > 0.0
      && exerciseDuration <= RecommendedDuration
      && CalibrationValid(Calibration())
      && 0 <= currentColorIndex < |FocusColors|
      && (exerciseTimerRunning ==> SensorEngaged(motionCalls))
      && (SensorEngaged(motionCalls) ==> isExerciseActive)
    }

    /** The screen's invariant: consistent, and a running duration timer has seconds left to count. */
    ghost predicate Valid()
      reads this
    {
      Consistent() && ClockValid(Clock())
    }

    /** `isInTargetZone`. */
    predicate IsInTargetZone()
      reads this
    {
      InTargetZone(focusPoint.y, screenHeight)
    }

    /** The status bar's timer text. */
    function ElapsedLabel(): (text: string)
      reads this
      requires Valid()
      ensures ParseClock(text) == Some(exerciseDuration)
      ensures |text| == 5 && text[0] == '0' && '0' <= text[1] <= '3'
    {
      ClockTextRoundTrip(exerciseDuration);
      TimeString(exerciseDuration)
    }

    /** The initial values of the screen's state variables. */
    constructor (width: real, height: real)
      requires width > 0.0 && height > 0.0
      ensures Valid()
      ensures screenWidth == width && screenHeight == height
      ensures Clock() == ExerciseClock(false, false, 0, false)
      ensures Calibration() == CalibrationState(false, 0, false, false)
      ensures focusPoint == Origin && deviceOrientation == Flat
      ensures stabilityScore == 0.0 && !isDeviceStable
      ensures dotOpacity == 1.0 && currentColorIndex == 0 && showGuide && motionCalls == []
    {
      screenWidth, screenHeight := width, height;
      isExerciseActive := false;
      focusPoint := Origin;
      exerciseTimerRunning := false;
      exerciseDuration := 0;
      showExerciseComplete := false;
      deviceOrientation := Flat;
      stabilityScore := 0.0;
      isDeviceStable := false;
      calibrationMode := false;
      calibrationTicks := 0;
      calibrationTimerRunning := false;
      showCalibrationOverlay := false;
      dotOpacity := 1.0;
      currentColorIndex := 0;
      showGuide := true;
      motionCalls := [];
    }

    /** `setupView` (on appear): the dot goes to the centre of the green rectangle. */
    method SetupView()
      requires Valid()
      modifies this`focusPoint
      ensures Valid()
      ensures focusPoint == GreenZoneCentre(screenWidth, screenHeight)
    {
      focusPoint := GreenZoneCentre(screenWidth, screenHeight);
    }

    /** `cleanupView` (on disappear): both timers cancelled and the sensor released. */
    method CleanupView()
      requires Valid()
      modifies this`exerciseTimerRunning, this`calibrationTimerRunning, this`motionCalls
      ensures Valid()
      ensures !exerciseTimerRunning && !calibrationTimerRunning
      ensures motionCalls == old(motionCalls) + [StopMotionUpdates]
      ensures !SensorEngaged(motionCalls)
    {
      exerciseTimerRunning := false;
      calibrationTimerRunning := false;
      SensorEngagedAfter(motionCalls, StopMotionUpdates);
      motionCalls := motionCalls + [StopMotionUpdates];
    }

    method StartExercise()
      requires Valid()
      modifies this`isExerciseActive, this`exerciseDuration, this`exerciseTimerRunning, this`focusPoint, this`motionCalls
      ensures Valid()
      ensures Clock() == StartClock(old(Clock()))
      ensures focusPoint == GreenZoneCentre(screenWidth, screenHeight)
      ensures motionCalls == old(motionCalls) + [StartMotionUpdates]
      ensures SensorEngaged(motionCalls)
    {
      isExerciseActive := true;
      exerciseDuration := 0;
      focusPoint := GreenZoneCentre(screenWidth, screenHeight);
      exerciseTimerRunning := true;
      SensorEngagedAfter(motionCalls, StartMotionUpdates);
      motionCalls := motionCalls + [StartMotionUpdates];
    }

    /** `stopExercise`: a second call leaves the state as the first one did. */
    method StopExercise()
      requires Consistent()
      modifies this`isExerciseActive, this`exerciseTimerRunning, this`focusPoint, this`motionCalls
      ensures Valid()
      ensures Clock() == StopClock(old(Clock()))
      ensures focusPoint == GreenZoneCentre(screenWidth, screenHeight)
      ensures motionCalls == old(motionCalls) + [StopMotionUpdates]
      ensures !SensorEngaged(motionCalls)
    {
      isExerciseActive := false;
      exerciseTimerRunning := false;
      SensorEngagedAfter(motionCalls, StopMotionUpdates);
      motionCalls := motionCalls + [StopMotionUpdates];
      focusPoint := GreenZoneCentre(screenWidth, screenHeight);
    }

    /** One firing of the one-second duration timer. */
    method DurationTick()
      requires Valid() && exerciseTimerRunning
      modifies this`isExerciseActive, this`exerciseDuration, this`exerciseTimerRunning, this`showExerciseComplete,
               this`focusPoint, this`motionCalls
      ensures Valid()
      ensures Clock() == TickClock(old(Clock()))
      ensures exerciseDuration == old(exerciseDuration) + 1 <= RecommendedDuration
      ensures exerciseDuration == RecommendedDuration ==>
        focusPoint == GreenZoneCentre(screenWidth, screenHeight) && motionCalls == old(motionCalls) + [StopMotionUpdates]
      ensures exerciseDuration < RecommendedDuration ==>
        focusPoint == old(focusPoint) && motionCalls == old(motionCalls)
    {
      exerciseDuration := exerciseDuration + 1;
      if exerciseDuration >= RecommendedDuration {
        StopExercise();
        showExerciseComplete := true;
      }
    }

    /** `startCalibration`; the exercise state and the dot are left alone. */
    method StartCalibration()
      requires Valid()
      modifies this`calibrationMode, this`calibrationTicks, this`calibrationTimerRunning, this`showCalibrationOverlay
      ensures Valid()
      ensures Calibration() == CalibrationStarted
    {
      calibrationMode := true;
      calibrationTicks := 0;
      showCalibrationOverlay := true;
      calibrationTimerRunning := true;
    }

    /** One firing of the 0.1-second calibration timer. */
    method CalibrationTick()
      requires Valid() && calibrationTimerRunning
      modifies this`calibrationMode, this`calibrationTicks, this`calibrationTimerRunning, this`showCalibrationOverlay,
               this`motionCalls
      ensures Valid()
      ensures Calibration() == TickCalibration(old(Calibration()))
      ensures motionCalls == old(motionCalls) + if CompletesCalibration(old(Calibration())) then [Calibrate] else []
    {
      if calibrationTicks < CalibrationSteps {
        calibrationTicks := calibrationTicks + 1;
        if calibrationTicks >= CalibrationSteps {
          calibrationMode := false;
          SensorEngagedAfter(motionCalls, Calibrate);
          motionCalls := motionCalls + [Calibrate];
          calibrationTimerRunning := false;
          showCalibrationOverlay := false;
        }
      }
    }

    /** The Calibrate button: only while no exercise runs. */
    method PressCalibrate()
      requires Valid()
      modifies this`calibrationMode, this`calibrationTicks, this`calibrationTimerRunning, this`showCalibrationOverlay
      ensures Valid()
      ensures Calibration() == if isExerciseActive then old(Calibration()) else CalibrationStarted
    {
      if !isExerciseActive {
        StartCalibration();
      }
    }

    /** The Start/Stop button. */
    method PressStartStop()
      requires Valid()
      modifies this`isExerciseActive, this`exerciseDuration, this`exerciseTimerRunning, this`focusPoint, this`motionCalls
      ensures Valid()
      ensures Clock() == if old(isExerciseActive) then StopClock(old(Clock())) else StartClock(old(Clock()))
      ensures focusPoint == GreenZoneCentre(screenWidth, screenHeight)
      ensures motionCalls == old(motionCalls) + [if old(isExerciseActive) then StopMotionUpdates else StartMotionUpdates]
      ensures SensorEngaged(motionCalls) <==> isExerciseActive
    {
      if isExerciseActive {
        StopExercise();
      } else {
        StartExercise();
      }
    }

    /** The Guide button, enabled only while no exercise runs. */
    method PressGuide()
      modifies this`showGuide
      ensures showGuide == (old(showGuide) || !isExerciseActive)
    {
      if !isExerciseActive {
        showGuide := true;
      }
    }

    /** The guide's "Got it" button. */
    method DismissGuide()
      modifies this`showGuide
      ensures !showGuide
    {
      showGuide := false;
    }

    /** `updateStabilityScore`, from the current dot position and the roll signal. */
    method UpdateStabilityScore(roll: real)
      modifies this`stabilityScore, this`isDeviceStable
      ensures stabilityScore == StabilityScore(focusPoint.y, screenHeight, roll)
      ensures 0.0 <= stabilityScore <= 100.0
      ensures isDeviceStable <==> IsStable(stabilityScore)
      ensures isDeviceStable ==> IsInTargetZone()
    {
      stabilityScore := StabilityScore(focusPoint.y, screenHeight, roll);
      isDeviceStable := IsStable(stabilityScore);
      if isDeviceStable {
        StableOnlyNearCentre(focusPoint.y, screenHeight, roll);
      }
    }

    /** `updateDeviceOrientation`: a missing device-motion sample leaves the pose as it was. */
    method UpdateDeviceOrientation(gravityZ: Option<real>)
      modifies this`deviceOrientation
      ensures deviceOrientation == NextOrientation(old(deviceOrientation), gravityZ)
      ensures deviceOrientation != Tilted || old(deviceOrientation) == Tilted
    {
      if gravityZ.Some? {
        deviceOrientation := Classify(gravityZ.value);
      }
    }

    /** `updateFocusPoint`: move the dot, then rescore and reclassify. */
    method UpdateFocusPoint(reading: MotionReading)
      requires Valid()
      modifies this`focusPoint, this`stabilityScore, this`isDeviceStable, this`deviceOrientation
      ensures Valid()
      ensures focusPoint == MapFocus(reading.yaw, reading.pitch, screenWidth, screenHeight)
      ensures InMovementArea(focusPoint, screenWidth, screenHeight)
      ensures stabilityScore == StabilityScore(focusPoint.y, screenHeight, reading.roll)
      ensures isDeviceStable <==> IsStable(stabilityScore)
      ensures isDeviceStable ==> IsInTargetZone()
      ensures deviceOrientation == NextOrientation(old(deviceOrientation), reading.gravityZ)
    {
      focusPoint := MapFocus(reading.yaw, reading.pitch, screenWidth, screenHeight);
      UpdateStabilityScore(reading.roll);
      UpdateDeviceOrientation(reading.gravityZ);
    }

    /** `updateVisualFeedback`. */
    method UpdateVisualFeedback()
      requires Valid()
      modifies this`dotOpacity, this`currentColorIndex
      ensures Valid()
      ensures dotOpacity == DotOpacity(IsInTargetZone())
      ensures currentColorIndex == ColorIndex(IsInTargetZone(), isDeviceStable)
    {
      dotOpacity := DotOpacity(IsInTargetZone());
      currentColorIndex := ColorIndex(IsInTargetZone(), isDeviceStable);
    }

    /**
      The handler for a new roll value: while the exercise runs, move the dot and refresh the
      feedback. Because stability implies being in the band, the cyan index 1 never results.
    */
    method OnRollChange(reading: MotionReading)
      requires Valid()
      modifies this`focusPoint, this`stabilityScore, this`isDeviceStable, this`deviceOrientation,
               this`dotOpacity, this`currentColorIndex
      ensures Valid()
      ensures !old(isExerciseActive) ==> unchanged(this)
      ensures old(isExerciseActive) ==>
        && focusPoint == MapFocus(reading.yaw, reading.pitch, screenWidth, screenHeight)
        && stabilityScore == StabilityScore(focusPoint.y, screenHeight, reading.roll)
        && (isDeviceStable <==> IsStable(stabilityScore))
        && deviceOrientation == NextOrientation(old(deviceOrientation), reading.gravityZ)
        && dotOpacity == DotOpacity(IsInTargetZone())
        && currentColorIndex == ColorIndex(IsInTargetZone(), isDeviceStable)
        && currentColorIndex != 1
    {
      if isExerciseActive {
        UpdateFocusPoint(reading);
        UpdateVisualFeedback();
      }
    }

    /** Leaving the horizon tab stops the exercise. */
    method OnSelectedTabChange(newTab: int)
      requires Valid()
      modifies this`isExerciseActive, this`exerciseTimerRunning, this`focusPoint, this`motionCalls
      ensures Valid()
      ensures newTab != 0 ==>
        && Clock() == StopClock(old(Clock()))
        && focusPoint == GreenZoneCentre(screenWidth, screenHeight)
        && motionCalls == old(motionCalls) + [StopMotionUpdates]
        && !SensorEngaged(motionCalls)
      ensures newTab == 0 ==> unchanged(this)
    {
      if newTab != 0 {
        StopExercise();
      }
    }

    /** The app resigning active stops the exercise. */
    method OnWillResignActive()
      requires Valid()
      modifies this`isExerciseActive, this`exerciseTimerRunning, this`focusPoint, this`motionCalls
      ensures Valid()
      ensures Clock() == StopClock(old(Clock())) && !SensorEngaged(motionCalls)
      ensures focusPoint == GreenZoneCentre(screenWidth, screenHeight)
      ensures motionCalls == old(motionCalls) + [StopMotionUpdates]
    {
      StopExercise();
    }
  }
}
