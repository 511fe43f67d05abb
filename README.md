# MotionEase: horizon-gaze controller and supporting screens, in Dafny

MotionEase is an iPad/iPhone app with motion-sickness relief exercises. This project models the
logic behind three of its screens and three of its small model types:

- **Horizon gaze** (`HorizonGaze`, one class plus the pure functions it uses). A white dot follows
  the device's yaw and pitch. It is clamped to a rectangle around a green band. The screen keeps a
  stability score, classifies the device pose from gravity, and runs a 180-second exercise clock and
  a ten-step calibration ramp. The class `HorizonGazeView` keeps the screen's state variables. Each
  handler and each timer firing is a method whose `ensures` gives the new state in terms of pure
  step functions (`StartClock`, `StopClock`, `TickClock`, `TickCalibration`, `MapFocus`, ...). The
  lemmas about those functions carry the properties:
  - the dot stays in its rectangle;
  - the centre is the image of a level device;
  - a stable reading implies the dot is in the band;
  - the clock never passes 180 and stops after exactly 180 ticks;
  - the ramp completes on its tenth tick, exactly once;
  - the "mm:ss" label reads back as the elapsed seconds.
- **Breathing screen** (`BreathingScreen`): the inline severity-to-cycles table (written twice in
  the source, proved to agree), the header, progress and ring arithmetic, and the handlers that
  start, pause, resume or stop the exercise manager. The manager's run state (active, paused,
  timer scheduled) is a class whose start, pause, resume and stop methods follow pure step
  functions; the tab-change handler is proved to pause a begun exercise and drop its timer.
- **Onboarding** (`Onboarding`): the Next/Skip pager over slides 0 to 3, its caption and its page dots.
- **Models** (`Severity`, `Orientation`, `Geometry`): `SymptomSeverity`, `DeviceOrientation` and the
  `CGPoint` operators.

`CGFloat` and `Double` are Dafny `real`. The screen size is the pair of positive constants
`screenWidth` and `screenHeight`. Attitude (yaw, pitch, the roll signal) and gravity z are
parameters: a `MotionReading`, whose gravity is absent when the motion manager has no
device-motion sample. Every timer firing is an explicit `...Tick` method. Such a method may only be
called while its timer is scheduled, so an invalidated timer never fires. Calls into the motion
manager (start updates, stop updates, calibrate) are appended to the trace `motionCalls`; what the
motion manager does inside is not part of this model. `SensorEngaged` reads from the trace whether
the sensor feed is on. The screen invariant `Valid()` states that the duration timer only runs
while the sensor is on, and that the sensor is only on while the exercise is active. So every
exit path (stop, resign-active, tab change, disappear) leaves the sensor off.

The model follows the code:
- The pose classifier never yields `tilted`: |z| between 0.45 and 0.85 inclusive gives `flat`.
- The horizon screen has no pause/resume and no smoothing. The smoothing fields are declared but
  never used.
- Calibration is guarded only by the Calibrate button (`PressCalibrate`). `startCalibration` itself
  runs in any state.
- `cleanupView` cancels both timers and stops the sensor, but leaves `isExerciseActive` as it was.
  So `Valid()` only promises "sensor on implies active", not the converse.
- `updateStabilityScore` always runs before `updateVisualFeedback`, with neither the dot nor
  `isDeviceStable` changing in between (only `updateDeviceOrientation` runs between them). A
  stable score forces the dot into the band (`StableOnlyNearCentre`). So the cyan colour index 1
  never results from the roll handler (`OnRollChange`).

## Model

| member | source | states |
|---|---|---|
| `Geometry.DividedBy` | MotionEase.swiftpm/Extensions/CGPoint+Extensions.swift:16-18 | each component of the result, multiplied back by v, gives the original component (v non-zero) |
| `Geometry.Add` | MotionEase.swiftpm/Extensions/CGPoint+Extensions.swift:12-14 | `+` adds component-wise; its laws are the two `Add...` lemmas below |
| `Geometry.AddIsComponentWise` | MotionEase.swiftpm/Extensions/CGPoint+Extensions.swift:12-14 | (p + q).x = p.x + q.x and (p + q).y = p.y + q.y |
| `Geometry.AddIsCommutativeMonoid` | MotionEase.swiftpm/Extensions/CGPoint+Extensions.swift:12-14 | `+` is commutative and associative with (0,0) as identity |
| `Geometry.DividedByOneIsIdentity` | MotionEase.swiftpm/Extensions/CGPoint+Extensions.swift:16-18 | dividing by 1 returns the point unchanged |
| `Geometry.DividedByUndoesScaling` | MotionEase.swiftpm/Extensions/CGPoint+Extensions.swift:16-18 | division by v and scaling by v are inverse to each other |
| `Geometry.DividedByDistributesOverAdd` | MotionEase.swiftpm/Extensions/CGPoint+Extensions.swift:12-18 | (p + q) / v = p / v + q / v for v non-zero |
| `Severity.RawValue` | MotionEase.swiftpm/Models/SymptomSeverity.swift:11-14 | raw values lie in 1..3 |
| `Severity.FromRaw` | MotionEase.swiftpm/Models/SymptomSeverity.swift:11-14 | the raw-value initialiser succeeds exactly for 1, 2, 3, and the case it returns has that raw value |
| `Severity.Id` | MotionEase.swiftpm/Models/SymptomSeverity.swift:16 | the id identifies its case: reading it back as a raw value gives the same case |
| `Severity.AllCases` | MotionEase.swiftpm/Models/SymptomSeverity.swift:11-14 | three cases, the i-th with raw value i + 1 (declaration order) |
| `Severity.RecommendedDuration` | MotionEase.swiftpm/Models/SymptomSeverity.swift:26-32 | duration = 60 · (2 · rawValue + 1): 180, 300, 420 seconds |
| `Severity.RawValueRoundTrip` | MotionEase.swiftpm/Models/SymptomSeverity.swift:11-16 | FromRaw(RawValue(s)) = Some(s), and `id` equals `rawValue` |
| `Severity.RawValueIsInjective` | MotionEase.swiftpm/Models/SymptomSeverity.swift:11-14 | equal raw values mean equal cases |
| `Severity.EveryCaseListedOnce` | MotionEase.swiftpm/Models/SymptomSeverity.swift:11-14 | every case occurs in `allCases`, and no case occurs twice |
| `Severity.RecommendedDurationIncreasing` | MotionEase.swiftpm/Models/SymptomSeverity.swift:26-32 | durations strictly increase with raw value and are whole minutes |
| `Severity.NamesAndColorsDistinct` | MotionEase.swiftpm/Models/SymptomSeverity.swift:18-40 | distinct cases have distinct names and distinct colours |
| `Severity.Description` | MotionEase.swiftpm/Models/SymptomSeverity.swift:18-24 | the case's display name; distinct per case by `NamesAndColorsDistinct` |
| `Severity.Color` | MotionEase.swiftpm/Models/SymptomSeverity.swift:34-40 | blue, orange, red; distinct per case by `NamesAndColorsDistinct` |
| `Orientation.IconNamesDistinct` | MotionEase.swiftpm/Models/DeviceOrientation.swift:14-21 | the four icon names are pairwise distinct |
| `Orientation.IconName` | MotionEase.swiftpm/Models/DeviceOrientation.swift:14-21 | the SF Symbol name per pose; pairwise distinct by `IconNamesDistinct` |
| `Orientation.OptimalExactlyWhenGreen` | MotionEase.swiftpm/Models/DeviceOrientation.swift:23-39 | "Optimal" exactly when green, which is exactly vertical and eye level |
| `Orientation.Description` | MotionEase.swiftpm/Models/DeviceOrientation.swift:23-30 | the pose's status text; "Optimal" exactly for the green poses by `OptimalExactlyWhenGreen` |
| `Orientation.Color` | MotionEase.swiftpm/Models/DeviceOrientation.swift:32-39 | the pose's tint; green exactly for vertical and eye level by `OptimalExactlyWhenGreen` |
| `HorizonGaze.Clamp` | MotionEase.swiftpm/Views/HorizonGazeView.swift:569-571 | max(lo, min(hi, v)) lies in [lo, hi], is v when v is inside, lo below and hi above |
| `HorizonGaze.ClampIsMonotone` | MotionEase.swiftpm/Views/HorizonGazeView.swift:569-571 | clamping preserves order |
| `HorizonGaze.MapFocus` | MotionEase.swiftpm/Views/HorizonGazeView.swift:543-575 | the new dot lies in [0.1w, 0.9w] × [h/2 − 160, 0.85h], and equals (w/2 + 250·yaw, h/2 − 250·pitch) when that is inside |
| `HorizonGaze.MapFocusIsMonotone` | MotionEase.swiftpm/Views/HorizonGazeView.swift:557-571 | x never decreases as yaw grows; y never increases as pitch grows (pitch inverted) |
| `HorizonGaze.MapFocusAxesIndependent` | MotionEase.swiftpm/Views/HorizonGazeView.swift:561-571 | x depends only on yaw and y only on pitch |
| `HorizonGaze.GreenZoneCentre` | MotionEase.swiftpm/Views/HorizonGazeView.swift:450-457 | ((w − 0.8w)/2 + 0.4w, h/2) = (w/2, h/2) = the mapped point for yaw = pitch = 0, inside the rectangle and the band |
| `HorizonGaze.PositionScore` | MotionEase.swiftpm/Views/HorizonGazeView.swift:523-526 | in [0,100]; 100 exactly at the centre; positive exactly when closer than 60 to the centre |
| `HorizonGaze.MotionScore` | MotionEase.swiftpm/Views/HorizonGazeView.swift:528 | in [0,100]; 100 exactly at zero roll; positive exactly when \|roll\| < 1 |
| `HorizonGaze.StabilityScore` | MotionEase.swiftpm/Views/HorizonGazeView.swift:523-533 | the mean score lies in [0,100] and is 100 exactly when centred with zero roll |
| `HorizonGaze.StableOnlyNearCentre` | MotionEase.swiftpm/Views/HorizonGazeView.swift:523-533 | a score above 80 needs \|y − h/2\| < 24 and \|roll\| < 0.4, so the dot is in the band |
| `HorizonGaze.IsStable` | MotionEase.swiftpm/Views/HorizonGazeView.swift:532 | stable means a score above 80; what that forces is `StableOnlyNearCentre` |
| `HorizonGaze.InTargetZone` | MotionEase.swiftpm/Views/HorizonGazeView.swift:54-56 | y in the closed range centerY ± 60; characterised by `TargetZoneIsBandAroundCentre` |
| `HorizonGaze.TargetZoneIsBandAroundCentre` | MotionEase.swiftpm/Views/HorizonGazeView.swift:50-56 | the band is exactly \|y − h/2\| ≤ 60 and contains the centre |
| `HorizonGaze.HorizonGazeView.IsInTargetZone` | MotionEase.swiftpm/Views/HorizonGazeView.swift:71-73 | the current dot's y lies in the band (`InTargetZone`) |
| `HorizonGaze.Classify` | MotionEase.swiftpm/Views/HorizonGazeView.swift:581-595 | eyeLevel iff \|z\| > 0.85, vertical iff \|z\| < 0.45, flat iff 0.45 ≤ \|z\| ≤ 0.85, never tilted |
| `HorizonGaze.ClassifyBoundariesAndSign` | MotionEase.swiftpm/Views/HorizonGazeView.swift:587-593 | ±0.85 and ±0.45 both give flat; the sign of z does not matter |
| `HorizonGaze.NextOrientation` | MotionEase.swiftpm/Views/HorizonGazeView.swift:581-595 | without a device-motion sample the pose is unchanged; with one it is never tilted |
| `HorizonGaze.DotOpacity` | MotionEase.swiftpm/Views/HorizonGazeView.swift:597-602 | opacity is 1.0 exactly in the band, otherwise 0.7 |
| `HorizonGaze.ColorIndex` | MotionEase.swiftpm/Views/HorizonGazeView.swift:597-602 | a valid index into the three focus colours: white iff in the band, cyan iff outside but stable |
| `HorizonGaze.TimeParts` | MotionEase.swiftpm/Views/HorizonGazeView.swift:537-541 | minutes · 60 + seconds = input; for input ≥ 0 both are non-negative and seconds < 60 (Swift truncating division) |
| `HorizonGaze.TimeString` | MotionEase.swiftpm/Views/HorizonGazeView.swift:537-541 | "%02d:%02d" of minutes and seconds; its inverse is `ParseClock`, by `ClockTextRoundTrip` and `ClockTextParsesOnlyLabels` |
| `HorizonGaze.ClockTextRoundTrip` | MotionEase.swiftpm/Views/HorizonGazeView.swift:537-541 | below 6000 s the label is the five characters "mm:ss" and reads back as the same count |
| `HorizonGaze.ClockTextParsesOnlyLabels` | MotionEase.swiftpm/Views/HorizonGazeView.swift:537-541 | every "mm:ss" text that reads back to s is exactly the label of s |
| `HorizonGaze.StepText` | MotionEase.swiftpm/Views/HorizonGazeView.swift:406-414 | the step text is non-empty exactly for steps 1 to 4 |
| `HorizonGaze.ClockStepsKeepValid` | MotionEase.swiftpm/Views/HorizonGazeView.swift:444-490 | start, stop and a tick keep the clock invariant (duration ≤ 180, a running timer has time left) and a tick adds one second |
| `HorizonGaze.StartClock` | MotionEase.swiftpm/Views/HorizonGazeView.swift:444-473 | `startExercise` on the clock: active, count 0, fresh timer; kept valid by `ClockStepsKeepValid` |
| `HorizonGaze.StopClock` | MotionEase.swiftpm/Views/HorizonGazeView.swift:475-490 | `stopExercise` on the clock: inactive, timer cleared, count kept; idempotent by `StopIsIdempotent` |
| `HorizonGaze.TickClock` | MotionEase.swiftpm/Views/HorizonGazeView.swift:459-467 | one duration-timer firing; its iterates are `TicksWhileRunning` |
| `HorizonGaze.StopIsIdempotent` | MotionEase.swiftpm/Views/HorizonGazeView.swift:475-490 | stopping twice equals stopping once; stop keeps the duration |
| `HorizonGaze.TicksWhileRunning` | MotionEase.swiftpm/Views/HorizonGazeView.swift:459-467 | after n ticks the duration is min(d + n, 180), and the clock runs exactly while d + n < 180 |
| `HorizonGaze.ExerciseRunsExactlyRecommended` | MotionEase.swiftpm/Views/HorizonGazeView.swift:444-467 | from a start, fewer than 180 ticks leave the exercise running with that count; 180 or more end it at exactly 180 with `showExerciseComplete` set |
| `HorizonGaze.CalibrationProgress` | MotionEase.swiftpm/Views/HorizonGazeView.swift:416-429 | progress lies in [0,1] and is 1 exactly after ten steps |
| `HorizonGaze.TickCalibration` | MotionEase.swiftpm/Views/HorizonGazeView.swift:424-438 | one calibration-timer firing; its iterates are `CalibrationTicksWhileRunning` |
| `HorizonGaze.CalibrationTicksWhileRunning` | MotionEase.swiftpm/Views/HorizonGazeView.swift:424-438 | n ticks add n steps until the tenth, which ends the mode, the timer and the overlay |
| `HorizonGaze.CalibrationTakesTenTicks` | MotionEase.swiftpm/Views/HorizonGazeView.swift:416-442 | from a start, the ramp runs for nine ticks, completes on exactly the tenth, then stays finished |
| `HorizonGaze.SensorEngagedAfter` | MotionEase.swiftpm/Views/HorizonGazeView.swift:469-480 | starting updates engages the sensor, stopping releases it, calibrating leaves it as it was |
| `HorizonGaze.HorizonGazeView.ElapsedLabel` | MotionEase.swiftpm/Views/HorizonGazeView.swift:275-280 | the status-bar timer reads back as the elapsed seconds and never shows more than 03 minutes |
| `HorizonGaze.HorizonGazeView.constructor` | MotionEase.swiftpm/Views/HorizonGazeView.swift:16-44 | initial state: inactive, no timers, duration 0, dot at (0,0), flat, opacity 1, colour 0, guide shown |
| `HorizonGaze.HorizonGazeView.SetupView` | MotionEase.swiftpm/Views/HorizonGazeView.swift:492-502 | the dot goes to the centre of the green rectangle |
| `HorizonGaze.HorizonGazeView.CleanupView` | MotionEase.swiftpm/Views/HorizonGazeView.swift:504-510 | both timers cancelled and the sensor released; nothing else changes |
| `HorizonGaze.HorizonGazeView.StartExercise` | MotionEase.swiftpm/Views/HorizonGazeView.swift:444-473 | active, duration 0, fresh timer replacing the old one, dot centred, sensor started |
| `HorizonGaze.HorizonGazeView.StopExercise` | MotionEase.swiftpm/Views/HorizonGazeView.swift:475-490 | inactive, timer cleared, dot centred, sensor released, duration untouched |
| `HorizonGaze.HorizonGazeView.DurationTick` | MotionEase.swiftpm/Views/HorizonGazeView.swift:459-467 | adds one second, never passing 180; on reaching 180 stops the exercise and sets `showExerciseComplete` |
| `HorizonGaze.HorizonGazeView.StartCalibration` | MotionEase.swiftpm/Views/HorizonGazeView.swift:416-442 | progress 0, mode and overlay on, a fresh timer; exercise state and dot untouched |
| `HorizonGaze.HorizonGazeView.CalibrationTick` | MotionEase.swiftpm/Views/HorizonGazeView.swift:424-438 | one 0.1 step; the completing step ends the ramp and calls `calibrate()` exactly then |
| `HorizonGaze.HorizonGazeView.PressCalibrate` | MotionEase.swiftpm/Views/HorizonGazeView.swift:154-157 | calibration starts only when no exercise is active |
| `HorizonGaze.HorizonGazeView.PressStartStop` | MotionEase.swiftpm/Views/HorizonGazeView.swift:171-176 | toggles between stop and start: the dot is re-centred, exactly one stop or start call is recorded, and afterwards the sensor is on exactly when active |
| `HorizonGaze.HorizonGazeView.PressGuide` | MotionEase.swiftpm/Views/HorizonGazeView.swift:190-193 | the guide opens only when no exercise is active |
| `HorizonGaze.HorizonGazeView.DismissGuide` | MotionEase.swiftpm/Views/HorizonGazeView.swift:378-381 | "Got it" hides the guide |
| `HorizonGaze.HorizonGazeView.UpdateStabilityScore` | MotionEase.swiftpm/Views/HorizonGazeView.swift:523-534 | score from the current dot and roll, in [0,100]; stable iff above 80, and stable implies in the band |
| `HorizonGaze.HorizonGazeView.UpdateDeviceOrientation` | MotionEase.swiftpm/Views/HorizonGazeView.swift:581-595 | pose from gravity z, unchanged without a sample, never newly tilted |
| `HorizonGaze.HorizonGazeView.UpdateFocusPoint` | MotionEase.swiftpm/Views/HorizonGazeView.swift:543-579 | dot = MapFocus(yaw, pitch), inside the rectangle; then score and pose refreshed from it |
| `HorizonGaze.HorizonGazeView.UpdateVisualFeedback` | MotionEase.swiftpm/Views/HorizonGazeView.swift:597-608 | opacity and colour index follow the band and stability as `DotOpacity`/`ColorIndex` state |
| `HorizonGaze.HorizonGazeView.OnRollChange` | MotionEase.swiftpm/Views/HorizonGazeView.swift:136-141 | only while active: dot, score, stable flag (score above 80), pose and feedback updated, colour index never 1; otherwise nothing changes |
| `HorizonGaze.HorizonGazeView.OnSelectedTabChange` | MotionEase.swiftpm/Views/HorizonGazeView.swift:142-146 | leaving tab 0 stops the exercise: clock stopped, dot re-centred, one stop call recorded, sensor released; tab 0 changes nothing |
| `HorizonGaze.HorizonGazeView.OnWillResignActive` | MotionEase.swiftpm/Views/HorizonGazeView.swift:147-149 | resigning active stops the exercise: clock stopped, dot re-centred, one stop call recorded, sensor released |
| `BreathingScreen.HeaderMaxCycles` | MotionEase.swiftpm/Views/BreathingExerciseView.swift:111-112 | max cycles = 5 · rawValue + 2: mild 7, moderate 12, severe 17 |
| `BreathingScreen.ProgressTotal` | MotionEase.swiftpm/Views/BreathingExerciseView.swift:153-156 | the progress total always equals the header's maximum |
| `BreathingScreen.HeaderCycleNumber` | MotionEase.swiftpm/Views/BreathingExerciseView.swift:114 | the header's cycle number; one ahead of the bar by `HeaderLeadsProgressByOne` |
| `BreathingScreen.ProgressValue` | MotionEase.swiftpm/Views/BreathingExerciseView.swift:154 | the bar's value; related to the header by `HeaderLeadsProgressByOne` |
| `BreathingScreen.ProgressFraction` | MotionEase.swiftpm/Views/BreathingExerciseView.swift:153-156 | the bar's fill lies in [0,1] for counts up to the maximum, and is full exactly at the maximum |
| `BreathingScreen.HeaderLeadsProgressByOne` | MotionEase.swiftpm/Views/BreathingExerciseView.swift:114-154 | the header shows cycleCount + 1, one more than the bar's value, and within 1..max while cycles remain |
| `BreathingScreen.SessionMinutes` | MotionEase.swiftpm/Views/BreathingExerciseView.swift:85 | minutes · 60 = recommended duration exactly: 3, 5 or 7 |
| `BreathingScreen.RingTrimEnd` | MotionEase.swiftpm/Views/BreathingExerciseView.swift:128 | in [0,1] when 0 ≤ remaining ≤ phase duration; 0 at a phase's start and 1 at its end |
| `BreathingScreen.RingFillsAsTimeRunsDown` | MotionEase.swiftpm/Views/BreathingExerciseView.swift:128 | less time remaining never shrinks the ring |
| `BreathingScreen.ShareOfPhase` | MotionEase.swiftpm/Views/BreathingExerciseView.swift:128 | remaining / duration lies in [0,1] while the countdown is within a phase of positive length |
| `BreathingScreen.StartRun` | MotionEase.swiftpm/Views/BreathingExerciseView.swift:201 | `startExercise` (BreathingExerciseManager.swift:79-89) on the run state: active, unpaused, timer scheduled; kept valid by `RunStepsKeepValid` |
| `BreathingScreen.PauseRun` | MotionEase.swiftpm/Views/BreathingExerciseView.swift:37 | `pauseExercise` (BreathingExerciseManager.swift:91-95) on the run state: paused, timer dropped; undone by `ResumeRun` (`PauseResumeRoundTrip`) |
| `BreathingScreen.ResumeRun` | MotionEase.swiftpm/Views/BreathingExerciseView.swift:166 | `resumeExercise` (BreathingExerciseManager.swift:97-102) on the run state: unpaused, timer scheduled; undone by `PauseRun` (`PauseResumeRoundTrip`) |
| `BreathingScreen.StopRun` | MotionEase.swiftpm/Views/BreathingExerciseView.swift:181 | `stopExercise` (BreathingExerciseManager.swift:104-108) on the run state: idle from any state |
| `BreathingScreen.LeaveTab` | MotionEase.swiftpm/Views/BreathingExerciseView.swift:40-46 | the tab-change handler on the run state; equal to a pause when it acts (`LeaveTabIsPause`) |
| `BreathingScreen.RunStepsKeepValid` | MotionEase.swiftpm/Views/BreathingExerciseView.swift:164-183 | the manager's start, pause, resume and stop (BreathingExerciseManager.swift:79-108) and the tab handler keep "a scheduled timer belongs to an unpaused run" |
| `BreathingScreen.PauseResumeRoundTrip` | MotionEase.swiftpm/Views/BreathingExerciseView.swift:164-170 | with the Pause/Resume button, resume undoes a pause of a running exercise, and pause undoes a resume of a paused one (BreathingExerciseManager.swift:91-102) |
| `BreathingScreen.LeaveTabIsPause` | MotionEase.swiftpm/Views/BreathingExerciseView.swift:40-46 | leaving tab 1 during an active run equals `pauseExercise`; otherwise nothing changes; the handler is idempotent |
| `BreathingScreen.BeginThenLeave` | MotionEase.swiftpm/Views/BreathingExerciseView.swift:35-46 | after Begin Exercise, leaving the tab or a non-active scene phase leaves the run active, paused and without a timer; Cancel then ends it |
| `BreathingScreen.BreathingExerciseManager.constructor` | MotionEase.swiftpm/Views/BreathingExerciseView.swift:18-21 | the manager (BreathingExerciseManager.swift:63-66) starts inactive, unpaused, without a timer, with the given severity |
| `BreathingScreen.BreathingExerciseManager.StartExercise` | MotionEase.swiftpm/Views/BreathingExerciseView.swift:201 | as BreathingExerciseManager.swift:79-89: active, unpaused, a timer scheduled |
| `BreathingScreen.BreathingExerciseManager.PauseExercise` | MotionEase.swiftpm/Views/BreathingExerciseView.swift:37 | as BreathingExerciseManager.swift:91-95: paused, timer dropped, `isActive` untouched |
| `BreathingScreen.BreathingExerciseManager.ResumeExercise` | MotionEase.swiftpm/Views/BreathingExerciseView.swift:166 | as BreathingExerciseManager.swift:97-102: unpaused, a timer scheduled, `isActive` untouched |
| `BreathingScreen.BreathingExerciseManager.StopExercise` | MotionEase.swiftpm/Views/BreathingExerciseView.swift:181 | as BreathingExerciseManager.swift:104-108: inactive, unpaused, timer dropped |
| `BreathingScreen.BreathingExerciseView.constructor` | MotionEase.swiftpm/Views/BreathingExerciseView.swift:12-21 | picker shown, moderate selected in the view and in a fresh idle manager |
| `BreathingScreen.BreathingExerciseView.SelectSeverity` | MotionEase.swiftpm/Views/BreathingExerciseView.swift:69-75 | tapping an option selects that severity |
| `BreathingScreen.BreathingExerciseView.BeginExercise` | MotionEase.swiftpm/Views/BreathingExerciseView.swift:198-202 | picker hidden, severity copied into the manager, and the manager's run state is that of `startExercise` |
| `BreathingScreen.BreathingExerciseView.PressPauseResume` | MotionEase.swiftpm/Views/BreathingExerciseView.swift:164-170 | resumes a paused manager and pauses any other |
| `BreathingScreen.BreathingExerciseView.Cancel` | MotionEase.swiftpm/Views/BreathingExerciseView.swift:180-183 | the manager is stopped (inactive, unpaused, no timer) and the picker shown again |
| `BreathingScreen.BreathingExerciseView.AcknowledgeCompletion` | MotionEase.swiftpm/Views/BreathingExerciseView.swift:47-50 | "Done" on the completion alert shows the picker |
| `BreathingScreen.BreathingExerciseView.OnScenePhaseChange` | MotionEase.swiftpm/Views/BreathingExerciseView.swift:35-39 | any scene phase other than active pauses the manager (paused, no timer); active changes nothing |
| `BreathingScreen.BreathingExerciseView.OnTabChange` | MotionEase.swiftpm/Views/BreathingExerciseView.swift:40-46 | leaving tab 1 while active sets paused and drops the timer; otherwise the manager is unchanged |
| `Onboarding.NextKeepsPageInRange` | MotionEase.swiftpm/Views/OnboardingView.swift:86-91 | Next keeps the page in 0..3 and activates exactly on page 3 |
| `Onboarding.NextPressed` | MotionEase.swiftpm/Views/OnboardingView.swift:86-91 | the Next button on the pager; range and activation by `NextKeepsPageInRange`, iterates by `NextPressedFrom` |
| `Onboarding.SkipPressed` | MotionEase.swiftpm/Views/OnboardingView.swift:64-66 | the Skip button: activates without moving the page |
| `Onboarding.NextPressedFrom` | MotionEase.swiftpm/Views/OnboardingView.swift:86-91 | n presses from page p reach page min(p + n, 3) and activate iff p + n > 3 |
| `Onboarding.NextFromFirstSlide` | MotionEase.swiftpm/Views/OnboardingView.swift:86-91 | from slide 0, n presses show slide min(n, 3), and the app activates from the fourth press on |
| `Onboarding.ButtonLabel` | MotionEase.swiftpm/Views/OnboardingView.swift:93 | "Get Started" exactly on page 3, "Next" otherwise |
| `Onboarding.PageIndicator` | MotionEase.swiftpm/Views/OnboardingView.swift:114-126 | one dot per page, dot i lit exactly when i is the current page |
| `Onboarding.OneDotHighlighted` | MotionEase.swiftpm/Views/OnboardingView.swift:114-126 | exactly one dot is lit when the current page is in range, none otherwise |
| `Onboarding.OnboardingView.constructor` | MotionEase.swiftpm/Views/OnboardingView.swift:12-14 | starts on page 0, not active |
| `Onboarding.OnboardingView.Next` | MotionEase.swiftpm/Views/OnboardingView.swift:86-91 | advances the page below 3, otherwise activates; the page stays in 0..3 |
| `Onboarding.OnboardingView.Skip` | MotionEase.swiftpm/Views/OnboardingView.swift:63-66 | activates from any page without moving it |
| `Onboarding.OnboardingView.SwipeTo` | MotionEase.swiftpm/Views/OnboardingView.swift:19-56 | swiping selects one of the slide tags 0..3 |
| `Onboarding.OnboardingView.Dots` | MotionEase.swiftpm/Views/OnboardingView.swift:82 | the four dots drawn have exactly one lit, at the current page |

## Left out

- Rendering and layout are not modelled: gradients, overlays, button styles, animations and `GeometryReader` sizes. The drawn band uses the geometry size; the logic, and so this model, uses the screen bounds.
- `MotionManager` is not part of this model: the CoreMotion feed, the roll/atan2 rule, the idempotence guard of `startMotionUpdates`, and what `calibrate()` stores. Its calls are recorded in a trace, and its readings are parameters.
- `BreathingExerciseManager` beyond its run state is not part of this model: the phase table, the tick engine (`updateExercise`, `moveToNextPhase`), cycle counting, the reset of `cycleCount`, `currentPhase` and `timeRemaining` on start, the session record and `showCompletion` on stop, and haptics. Only `isActive`, `isPaused`, whether `timer` is scheduled and `selectedSeverity` are kept.
- `BreathingScreen.RunState`: `timerScheduled` is one flag, so the run state holds at most one scheduled manager timer. `startExercise` and `resumeExercise` schedule a new timer without invalidating a running one; the screen never calls them while a timer runs, and a second, overlapping timer is not modelled.
- Timers, the run loop and main-actor dispatch are left out. Each firing is a tick method that may only be called while its timer is scheduled; a late firing after `invalidate` is a concurrency artefact.
- `HorizonGaze.CalibrationTick`: progress is an exact count of tenths, so the ramp completes on the 10th tick. With IEEE doubles, ten additions of 0.1 give 0.9999999999999999, so the app completes on the 11th tick; binary64 rounding is not modelled.
- Floating point in general is left out: the model uses exact reals, and NaN or infinite readings are not modelled.
- `Geometry.DividedBy`: requires a non-zero divisor. The source divides without a guard, and in `CGFloat` a zero divisor gives infinities or NaN.
- `HorizonGaze.HorizonGazeView.UpdateDeviceOrientation`: the gravity component is an input, and its range [-1, 1] is not assumed.
- `clampedFocusPoint` (radius scaling with `sqrt`) is not modelled: it is never called, and the dot is drawn at `focusPoint`.
- The fields declared but never used are not modelled: `smoothedRoll`, `smoothedPitch`, `smoothingFactor`, `isDragging`, `lastMotionUpdate`, `motionSmoothingQueue`, `queueSize`, `motionThreshold`, `motionThresholdForStability`, `stabilityCheckInterval` and `stabilityTimer`.
- Haptics (`setupHaptics` and the empty in-zone branch) are not modelled: a foreign framework with no effect on the screen's state.
- `exerciseCompleteModal` is never placed in the screen's `body`, so setting `showExerciseComplete` displays nothing; the modal and the guide's card layout are not modelled.
- Welcome, content (tab wiring), acupressure guide and `ExerciseSession` have no logic in the modelled screens and are not modelled.
