/** PomodoroApp of main.py without its window: the fields the timer logic updates
    in place and the methods that update them, each calling the others as the
    source does. Every method is proved to leave the object in the state that the
    function of the same name in module Session computes from the old state. */
module App {

  import opened Wrappers
  import opened Planner
  import opened TimeFormat
  import Session

  class PomodoroApp {
    var schedule: seq<Phase>
    var currentStepIndex: int
    var isBreak: bool
    var running: bool
    var timeLeft: nat
    var overtimeStart: Option<int>
    var log: seq<Session.LogRow>

    /** The object's fields as one value. */
    function Model(): Session.State
      reads this
    {
      Session.State(schedule, currentStepIndex, isBreak, running, timeLeft, overtimeStart, log)
    }

    predicate Valid()
      reads this
    {
      Session.Valid(Model())
    }

    /** __init__: no plan, index -1, a stopped WORK countdown of work_time. */
    constructor ()
      ensures Model() == Session.Initial() && Valid()
    {
      schedule := [];
      currentStepIndex := -1;
      isBreak := false;
      running := false;
      timeLeft := Session.WorkTime;
      overtimeStart := None;
      log := [];
    }

    method StopOvertime()
      modifies this
      ensures Model() == Session.StopOvertime(old(Model()))
    {
      overtimeStart := None;
    }

    /** start_overtime, with the clock reading supplied by the host. */
    method StartOvertime(now: int)
      modifies this
      ensures Model() == Session.StartOvertime(old(Model()), now)
    {
      overtimeStart := Some(now);
    }

    method LoadStepByIndex(index: int)
      requires 0 <= index
      modifies this
      ensures Model() == Session.LoadStepByIndex(old(Model()), index)
    {
      if index < |schedule| {
        currentStepIndex := index;
        var step := schedule[currentStepIndex];
        StopOvertime();
        isBreak := step.kind == Break;
        timeLeft := step.duration;
      } else {
        schedule := [];
        StopOvertime();
      }
    }

    /** update_plan_status: the count of phases still to come. */
    method UpdatePlanStatus() returns (remaining: int)
      ensures remaining == Session.RemainingSteps(Model())
      ensures Valid() && schedule != [] ==> 0 <= remaining <= |schedule|
    {
      remaining := |schedule| - (currentStepIndex + 1);
    }

    method NextStep()
      requires currentStepIndex >= -1
      modifies this
      ensures Model() == Session.NextStep(old(Model()))
    {
      LoadStepByIndex(currentStepIndex + 1);
    }

    method PrevStep()
      modifies this
      ensures Model() == Session.PrevStep(old(Model()))
    {
      if schedule != [] && currentStepIndex > 0 {
        LoadStepByIndex(currentStepIndex - 1);
      }
    }

    method SkipStep()
      requires currentStepIndex >= -1
      modifies this
      ensures Model() == Session.SkipStep(old(Model()))
    {
      if schedule != [] && currentStepIndex < |schedule| - 1 {
        LoadStepByIndex(currentStepIndex + 1);
      }
    }

    method StartSmartPlan(minutes: int)
      modifies this
      ensures Model() == Session.StartSmartPlan(old(Model()), minutes)
    {
      schedule := GenerateSchedule(minutes);
      if schedule == [] {
        return;
      }
      currentStepIndex := -1;
      NextStep();
    }

    method StopTimer()
      modifies this
      ensures Model() == Session.StopTimer(old(Model()))
    {
      if running {
        running := false;
      }
    }

    method ToggleModeLegacy()
      modifies this
      ensures Model() == Session.ToggleModeLegacy(old(Model()))
    {
      if !isBreak {
        isBreak := true;
        timeLeft := Session.BreakTime;
      } else {
        isBreak := false;
        timeLeft := Session.WorkTime;
      }
    }

    method FinishTimer(now: int)
      requires currentStepIndex >= -1
      modifies this
      ensures Model() == Session.FinishTimer(old(Model()), now)
    {
      running := false;
      if schedule != [] {
        if currentStepIndex < |schedule| - 1 {
          NextStep();
          StartOvertime(now);
        } else {
          NextStep();
        }
      } else {
        ToggleModeLegacy();
        StartOvertime(now);
      }
    }

    /** run_timer: the host calls it once per elapsed second in place of root.after. */
    method Tick(now: int)
      requires currentStepIndex >= -1
      modifies this
      ensures Model() == Session.Tick(old(Model()), now)
    {
      if running && timeLeft > 0 {
        timeLeft := timeLeft - 1;
      } else if timeLeft == 0 {
        FinishTimer(now);
      }
    }

    method StartTimer(now: int)
      requires currentStepIndex >= -1
      modifies this
      ensures Model() == Session.StartTimer(old(Model()), now)
    {
      if !running {
        running := true;
        StopOvertime();
        Tick(now);
      }
    }

    method ResetTimer()
      modifies this
      ensures Model() == Session.ResetTimer(old(Model()))
    {
      StopTimer();
      StopOvertime();
      if schedule != [] && 0 <= currentStepIndex < |schedule| {
        var step := schedule[currentStepIndex];
        timeLeft := step.duration;
      } else {
        timeLeft := if isBreak then Session.BreakTime else Session.WorkTime;
      }
    }

    /** log_distraction; the host supplies the formatted clock reading and whether
        the log file existed before this write. */
    method LogDistraction(timestamp: string, fileExisted: bool)
      modifies this
      ensures Model() == Session.LogDistraction(old(Model()), timestamp, fileExisted)
    {
      if !isBreak && running {
        var remaining := FormatTime(timeLeft);
        if !fileExisted {
          log := log + [Session.Header];
        }
        log := log + [Session.LogRow(timestamp, remaining)];
      }
    }
  }

  /** A two-phase plan, WORK 100 s then BREAK 50 s, whose first phase expires: the
      BREAK is loaded but not started, shown as 00:50, with overtime running. */
  method FinishTimerTransition(now: int) returns (app: PomodoroApp)
    ensures app.Valid() && !app.running
    ensures app.currentStepIndex == 1 && app.isBreak
    ensures app.timeLeft == 50 && FormatTime(app.timeLeft) == "00:50"
    ensures app.overtimeStart == Some(now)
  {
    app := new PomodoroApp();
    app.schedule := [Phase(Work, 100, "Step1"), Phase(Break, 50, "Step2")];
    app.currentStepIndex := 0;
    app.isBreak := false;
    app.FinishTimer(now);
    FormatFiftySeconds();
  }

  /** On the same two-phase plan: skip moves from the first phase to the second,
      back returns to the first, and skip at the last phase changes nothing. */
  method NavigateTwoPhases() returns (app: PomodoroApp)
    ensures app.schedule == [Phase(Work, 100, "Step1"), Phase(Break, 50, "Step2")]
    ensures app.currentStepIndex == 1 && app.isBreak && app.timeLeft == 50
  {
    app := new PomodoroApp();
    app.schedule := [Phase(Work, 100, "Step1"), Phase(Break, 50, "Step2")];
    app.currentStepIndex := 0;
    app.SkipStep();
    assert app.currentStepIndex == 1;
    app.PrevStep();
    assert app.currentStepIndex == 0 && !app.isBreak && app.timeLeft == 100;
    app.SkipStep();
    var before := app.Model();
    app.SkipStep();
    assert app.Model() == before;
  }

  /** A host driving the object: the default one-hour plan, started and run down
      to the first expiry, which pre-loads the 5-minute break with overtime. */
  method FirstPhaseOfDefaultPlan(now: int) returns (app: PomodoroApp)
    ensures app.Valid() && !app.running
    ensures app.currentStepIndex == 1 && app.isBreak && app.timeLeft == 300
    ensures app.overtimeStart == Some(now)
  {
    app := new PomodoroApp();
    app.StartSmartPlan(60);
    OneHourPlan();
    app.StartTimer(now);
    var seconds := 0;
    while seconds < 1499
      invariant 0 <= seconds <= 1499
      invariant app.Valid() && app.running
      invariant app.currentStepIndex == 0 && app.schedule == Schedule(60)
      invariant app.timeLeft == 1499 - seconds
      modifies app
    {
      app.Tick(now);
      seconds := seconds + 1;
    }
    app.Tick(now);
  }
}
