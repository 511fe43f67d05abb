/**
  The breathing screen's own logic: the severity picker, the header's cycle numbers, the
  progress bar, the countdown ring and the handlers that start, pause, resume or stop the
  exercise manager. Of the manager, only the state the view reads or writes is kept (active,
  paused, whether its 0.1-second timer is scheduled, the severity); its phase engine, cycle
  counting and session log are not part of this model.
*/
module BreathingScreen {

  import opened Severity

  /** `ScenePhase`. */
  datatype ScenePhase = Active | Inactive | Background

  /** The header's "of N": the inline severity table of maximum cycles. */
  function HeaderMaxCycles(s: SymptomSeverity): (n: int)
    ensures n == 5 * RawValue(s) + 2
  {
    if s == Mild then 7 else if s == Moderate then 12 else 17
  }

  /** The progress bar's `total`, written out again with the same table. */
  function ProgressTotal(s: SymptomSeverity): (total: real)
    ensures total == HeaderMaxCycles(s) as real
  {
    (if s == Mild then 7 else if s == Moderate then 12 else 17) as real
  }

  /** The header's "Cycle k": the cycle in progress, counting from one. */
  function HeaderCycleNumber(cycleCount: int): int
  {
    cycleCount + 1
  }

  /** The progress bar's `value`: the cycles already completed. */
  function ProgressValue(cycleCount: int): real
  {
    cycleCount as real
  }

  /** The filled share of the progress bar. */
  function ProgressFraction(cycleCount: int, s: SymptomSeverity): (f: real)
    ensures 0 <= cycleCount <= HeaderMaxCycles(s) ==> 0.0 <= f <= 1.0
    ensures f == 1.0 <==> cycleCount == HeaderMaxCycles(s)
  {
    ProgressValue(cycleCount) / ProgressTotal(s)
  }

  /** The header runs one ahead of the bar, and stays within "1 of N" .. "N of N" while cycles remain. */
  lemma HeaderLeadsProgressByOne(cycleCount: int, s: SymptomSeverity)
    ensures HeaderCycleNumber(cycleCount) as real == ProgressValue(cycleCount) + 1.0
    ensures 0 <= cycleCount < HeaderMaxCycles(s) ==> 1 <= HeaderCycleNumber(cycleCount) <= HeaderMaxCycles(s)
  {
  }

  /** "Recommended Session: N minutes": `recommendedDuration / 60`. */
  function SessionMinutes(s: SymptomSeverity): (minutes: int)
    ensures minutes * 60 == RecommendedDuration(s)
    ensures minutes == 2 * RawValue(s) + 1
  {
    RecommendedDuration(s) / 60
  }

  /** The countdown ring's trim end, `1 - timeRemaining / phaseDuration`. */
  function RingTrimEnd(timeRemaining: real, phaseDuration: real): (e: real)
    requires phaseDuration != 0.0
    ensures phaseDuration > 0.0 && 0.0 <= timeRemaining <= phaseDuration ==> 0.0 <= e <= 1.0
    ensures e == 0.0 <==> timeRemaining == phaseDuration
    ensures e == 1.0 <==> timeRemaining == 0.0
  {
    ShareOfPhase(timeRemaining, phaseDuration);
    1.0 - timeRemaining / phaseDuration
  }

  /** The remaining share of a phase lies in [0, 1] while the countdown is within the phase. */
  lemma ShareOfPhase(t: real, d: real)
    requires d != 0.0
    ensures d > 0.0 && 0.0 <= t <= d ==> 0.0 <= t / d <= 1.0
  {
    if d > 0.0 && 0.0 <= t <= d {
      assert t / d * d == t;
    }
  }

  /** As the countdown runs down the ring fills. */
  lemma RingFillsAsTimeRunsDown(t1: real, t2: real, phaseDuration: real)
    requires phaseDuration > 0.0 && t1 <= t2
    ensures RingTrimEnd(t2, phaseDuration) <= RingTrimEnd(t1, phaseDuration)
  {
    assert t1 / phaseDuration <= t2 / phaseDuration;
  }

  // ---------------------------------------------------------------------------------------------
  // The exercise manager's run state: `isActive`, `isPaused` and whether `timer` is scheduled.

  datatype RunState = RunState(active: bool, paused: bool, timerScheduled: bool)

  const Idle := RunState(false, false, false)

  /** The tick handler does nothing while paused, so a scheduled timer always belongs to an unpaused run. */
  ghost predicate RunStateValid(r: RunState)
  {
    r.timerScheduled ==> !r.paused
  }

  /** `startExercise`: active, unpaused, with a fresh timer. */
  function StartRun(r: RunState): RunState
  {
    RunState(true, false, true)
  }

  /** `pauseExercise`: paused, timer invalidated; `isActive` is left as it was. */
  function PauseRun(r: RunState): RunState
  {
    r.(paused := true, timerScheduled := false)
  }

  /** `resumeExercise`: unpaused, with a fresh timer; `isActive` is left as it was. */
  function ResumeRun(r: RunState): RunState
  {
    r.(paused := false, timerScheduled := true)
  }

  /** `stopExercise`: inactive, unpaused, timer invalidated. */
  function StopRun(r: RunState): RunState
  {
    Idle
  }

  /** The tab-change handler: leaving tab 1 during an active run pauses it and drops its timer. */
  function LeaveTab(r: RunState, newTab: int): RunState
  {
    if newTab != 1 && r.active then r.(paused := true, timerScheduled := false) else r
  }

  lemma RunStepsKeepValid(r: RunState, newTab: int)
    ensures RunStateValid(StartRun(r)) && RunStateValid(PauseRun(r)) && RunStateValid(ResumeRun(r))
    ensures RunStateValid(StopRun(r))
    ensures RunStateValid(r) ==> RunStateValid(LeaveTab(r, newTab))
  {
  }

  /** Resuming undoes a pause of a running exercise, and pausing undoes a resume of a paused one. */
  lemma PauseResumeRoundTrip(r: RunState)
    ensures r.timerScheduled && !r.paused ==> ResumeRun(PauseRun(r)) == r
    ensures r.paused && !r.timerScheduled ==> PauseRun(ResumeRun(r)) == r
  {
  }

  /** Leaving the tab during an active run is exactly a pause, and leaving twice is leaving once. */
  lemma LeaveTabIsPause(r: RunState, newTab: int)
    ensures newTab != 1 && r.active ==> LeaveTab(r, newTab) == PauseRun(r)
    ensures newTab == 1 || !r.active ==> LeaveTab(r, newTab) == r
    ensures LeaveTab(LeaveTab(r, newTab), newTab) == LeaveTab(r, newTab)
  {
  }

  /**
    After "Begin Exercise", leaving the tab, or the scene going inactive, leaves the run active
    but paused with no timer; Cancel then ends it from any state.
  */
  lemma BeginThenLeave(r: RunState, newTab: int)
    ensures newTab != 1 ==> LeaveTab(StartRun(r), newTab) == RunState(true, true, false)
    ensures newTab == 1 ==> LeaveTab(StartRun(r), newTab) == RunState(true, false, true)
    ensures PauseRun(StartRun(r)) == RunState(true, true, false)
    ensures StopRun(LeaveTab(StartRun(r), newTab)) == Idle
  {
  }

  // ---------------------------------------------------------------------------------------------

  /** The part of the exercise manager that this view reads or writes. */
  class BreathingExerciseManager {
    var isActive: bool
    var isPaused: bool
    var timerScheduled: bool
    var selectedSeverity: SymptomSeverity

    function Run(): RunState
      reads this
    {
      RunState(isActive, isPaused, timerScheduled)
    }

    ghost predicate Valid()
      reads this
    {
      RunStateValid(Run())
    }

    constructor (severity: SymptomSeverity)
      ensures Valid()
      ensures Run() == Idle && selectedSeverity == severity
    {
      isActive, isPaused, timerScheduled := false, false, false;
      selectedSeverity := severity;
    }

    method StartExercise()
      modifies this`isActive, this`isPaused, this`timerScheduled
      ensures Valid()
      ensures Run() == StartRun(old(Run()))
    {
      isActive := true;
      isPaused := false;
      timerScheduled := true;
    }

    method PauseExercise()
      modifies this`isPaused, this`timerScheduled
      ensures Valid()
      ensures Run() == PauseRun(old(Run()))
    {
      isPaused := true;
      timerScheduled := false;
    }

    method ResumeExercise()
      modifies this`isPaused, this`timerScheduled
      ensures Valid()
      ensures Run() == ResumeRun(old(Run()))
    {
      isPaused := false;
      timerScheduled := true;
    }

    method StopExercise()
      modifies this`isActive, this`isPaused, this`timerScheduled
      ensures Valid()
      ensures Run() == StopRun(old(Run()))
    {
      isActive := false;
      isPaused := false;
      timerScheduled := false;
    }
  }

  class BreathingExerciseView {
    var showingSeverityPicker: bool
    var selectedSeverity: SymptomSeverity
    const manager: BreathingExerciseManager

    /** The picker is shown first, with moderate preselected here and in the manager. */
    constructor ()
      ensures showingSeverityPicker && selectedSeverity == Moderate
      ensures fresh(manager) && manager.Valid()
      ensures manager.Run() == Idle && manager.selectedSeverity == Moderate
    {
      showingSeverityPicker := true;
      selectedSeverity := Moderate;
      manager := new BreathingExerciseManager(Moderate);
    }

    /** Tapping a severity option. */
    method SelectSeverity(s: SymptomSeverity)
      modifies this`selectedSeverity
      ensures selectedSeverity == s
    {
      selectedSeverity := s;
    }

    /** "Begin Exercise": hide the picker, hand the severity over, start the manager. */
    method BeginExercise()
      modifies this`showingSeverityPicker, manager
      ensures !showingSeverityPicker
      ensures manager.selectedSeverity == selectedSeverity
      ensures manager.Valid() && manager.Run() == StartRun(old(manager.Run()))
    {
      showingSeverityPicker := false;
      manager.selectedSeverity := selectedSeverity;
      manager.StartExercise();
    }

    /** The Pause/Resume button. */
    method PressPauseResume()
      modifies manager`isPaused, manager`timerScheduled
      ensures manager.Valid()
      ensures manager.Run() == if old(manager.isPaused) then ResumeRun(old(manager.Run())) else PauseRun(old(manager.Run()))
    {
      if manager.isPaused {
        manager.ResumeExercise();
      } else {
        manager.PauseExercise();
      }
    }

    /** "Cancel": stop the manager and go back to the picker. */
    method Cancel()
      modifies this`showingSeverityPicker, manager`isActive, manager`isPaused, manager`timerScheduled
      ensures showingSeverityPicker
      ensures manager.Valid() && manager.Run() == Idle
    {
      manager.StopExercise();
      showingSeverityPicker := true;
    }

    /** "Done" on the completion alert. */
    method AcknowledgeCompletion()
      modifies this`showingSeverityPicker
      ensures showingSeverityPicker
    {
      showingSeverityPicker := true;
    }

    /** Any scene phase other than active pauses the manager. */
    method OnScenePhaseChange(newPhase: ScenePhase)
      modifies manager`isPaused, manager`timerScheduled
      ensures newPhase != Active ==> manager.Valid() && manager.Run() == PauseRun(old(manager.Run()))
      ensures newPhase == Active ==> unchanged(manager)
    {
      if newPhase != Active {
        manager.PauseExercise();
      }
    }

    /** Leaving the breathing tab while an exercise runs pauses it and drops its timer. */
    method OnTabChange(newTab: int)
      requires manager.Valid()
      modifies manager`isPaused, manager`timerScheduled
      ensures manager.Valid()
      ensures manager.Run() == LeaveTab(old(manager.Run()), newTab)
    {
      if newTab != 1 && manager.isActive {
        manager.isPaused := true;
        manager.timerScheduled := false;
      }
    }
  }
}
