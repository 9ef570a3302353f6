/** The session/timer state machine of main.py's PomodoroApp, as functions from
    the state before an operation to the state after it. Each function follows
    the method of the same name line by line; the class in module App performs
    the same steps on its fields and is proved to agree with these functions. */
module Session {

  import opened Wrappers
  import opened Planner
  import opened TimeFormat

  /** work_time and break_time: the legacy-mode defaults, in seconds. */
  const WorkTime: nat := 25 * 60
  const BreakTime: nat := 5 * 60

  /** One row of the distraction log: a timestamp and the formatted time left. */
  datatype LogRow = LogRow(timestamp: string, timeRemaining: string)

  const Header: LogRow := LogRow("Timestamp", "TimeRemaining")

  /** The fields the logic reads and writes. `index` is current_step_index;
      `overtimeStart` is the overtime_start attribute, absent or holding the
      host's clock reading when the countdown expired; `log` is the rows of the
      distraction log. */
  datatype State = State(
    schedule: seq<Phase>,
    index: int,
    isBreak: bool,
    running: bool,
    timeLeft: nat,
    overtimeStart: Option<int>,
    log: seq<LogRow>)

  /** What holds in every state the program reaches: the index is never below -1;
      while a plan is active it points at one of its phases, whose kind is the
      current kind and whose duration bounds the countdown (index -1 only occurs
      with no plan); overtime is only displayed while the countdown is stopped. */
  predicate Valid(s: State)
  {
    && s.index >= -1
    && (s.schedule != [] ==>
          && 0 <= s.index < |s.schedule|
          && s.isBreak == (s.schedule[s.index].kind == Break)
          && s.timeLeft <= s.schedule[s.index].duration)
    && (s.running ==> s.overtimeStart == None)
  }

  /** The state __init__ sets up: no plan, index -1, a stopped 25-minute WORK. */
  function Initial(): State
  {
    State([], -1, false, false, WorkTime, None, [])
  }

  function StopOvertime(s: State): State
  {
    s.(overtimeStart := None)
  }

  function StartOvertime(s: State, now: int): State
  {
    s.(overtimeStart := Some(now))
  }

  /** _load_step_by_index: load phase `index` with its full duration, or, past
      the end, complete the plan by dropping the schedule. */
  function LoadStepByIndex(s: State, index: int): (r: State)
    requires 0 <= index
    ensures index < |s.schedule| ==>
      r == s.(index := index, isBreak := s.schedule[index].kind == Break,
              timeLeft := s.schedule[index].duration, overtimeStart := None)
    ensures index < |s.schedule| ==> AtPhase(r, index)
    ensures index >= |s.schedule| ==> r == s.(schedule := [], overtimeStart := None)
    ensures r.schedule != [] <==> index < |s.schedule|
    ensures s.index >= -1 ==> Valid(r)
  {
    if index < |s.schedule| then
      var step := s.schedule[index];
      StopOvertime(s.(index := index)).(isBreak := step.kind == Break, timeLeft := step.duration)
    else
      StopOvertime(s.(schedule := []))
  }

  /** The phase at position i is loaded: index, countdown and kind agree with it. */
  predicate AtPhase(s: State, i: int)
  {
    0 <= i < |s.schedule| && s.index == i
    && s.timeLeft == s.schedule[i].duration && s.isBreak == (s.schedule[i].kind == Break)
  }

  /** update_plan_status: the number of phases after the current one. */
  function RemainingSteps(s: State): (r: int)
    ensures Valid(s) && s.schedule != [] ==> 0 <= r < |s.schedule|
    ensures Valid(s) && s.schedule != [] ==> (r == 0 <==> s.index == |s.schedule| - 1)
  {
    |s.schedule| - (s.index + 1)
  }

  /** next_step: load the phase after the current one, or complete the plan. */
  function NextStep(s: State): (r: State)
    requires s.index >= -1
    ensures s.index + 1 < |s.schedule| ==>
      r == s.(index := s.index + 1, isBreak := s.schedule[s.index + 1].kind == Break,
              timeLeft := s.schedule[s.index + 1].duration, overtimeStart := None)
    ensures s.index + 1 >= |s.schedule| ==> r == s.(schedule := [], overtimeStart := None)
    ensures r.schedule == [] <==> s.index + 1 >= |s.schedule|
    ensures Valid(s) ==> Valid(r)
  {
    LoadStepByIndex(s, s.index + 1)
  }

  /** prev_step: back one phase, unless there is no plan or it is at the first. */
  function PrevStep(s: State): (r: State)
    ensures s.schedule == [] || s.index <= 0 ==> r == s
    ensures Valid(s) && s.schedule != [] && s.index > 0 ==>
      r == s.(index := s.index - 1, isBreak := s.schedule[s.index - 1].kind == Break,
              timeLeft := s.schedule[s.index - 1].duration, overtimeStart := None)
    ensures Valid(s) && s.schedule != [] && s.index > 0 ==> AtPhase(r, s.index - 1)
    ensures Valid(s) ==> Valid(r)
  {
    if s.schedule != [] && s.index > 0 then LoadStepByIndex(s, s.index - 1) else s
  }

  /** skip_step: forward one phase, unless there is no plan or it is at the last,
      so skipping never completes a plan. */
  function SkipStep(s: State): (r: State)
    requires s.index >= -1
    ensures r.schedule == s.schedule
    ensures s.index >= |s.schedule| - 1 ==> r == s
    ensures s.index < |s.schedule| - 1 ==>
      r == s.(index := s.index + 1, isBreak := s.schedule[s.index + 1].kind == Break,
              timeLeft := s.schedule[s.index + 1].duration, overtimeStart := None)
    ensures s.index < |s.schedule| - 1 ==> AtPhase(r, s.index + 1)
    ensures Valid(s) ==> Valid(r)
  {
    if s.schedule != [] && s.index < |s.schedule| - 1 then LoadStepByIndex(s, s.index + 1) else s
  }

  /** start_smart_plan: install the generated schedule and load its first phase;
      an infeasible request still overwrites the schedule with [] and changes
      nothing else. */
  function StartSmartPlan(s: State, minutes: int): (r: State)
    ensures minutes < 25 ==> r == s.(schedule := [])
    ensures minutes >= 25 ==> r.schedule == Schedule(minutes) && AtPhase(r, 0) && r.overtimeStart == None
    ensures r.running == s.running && r.log == s.log
    ensures Valid(s) ==> Valid(r)
  {
    InfeasibleIsEmpty(minutes);
    var t := s.(schedule := Schedule(minutes));
    if t.schedule == [] then t
    else NextStep(t.(index := -1))
  }

  /** stop_timer: only `running` changes, and only from true to false. */
  function StopTimer(s: State): (r: State)
    ensures !r.running && r.(running := s.running) == s
    ensures Valid(s) ==> Valid(r)
  {
    if s.running then s.(running := false) else s
  }

  /** toggle_mode_legacy: WORK and BREAK swap, with the default countdown of the new kind. */
  function ToggleModeLegacy(s: State): (r: State)
    ensures r.isBreak == !s.isBreak
    ensures r.timeLeft == if r.isBreak then BreakTime else WorkTime
    ensures r.(isBreak := s.isBreak, timeLeft := s.timeLeft) == s
  {
    if !s.isBreak then s.(isBreak := true, timeLeft := BreakTime)
    else s.(isBreak := false, timeLeft := WorkTime)
  }

  /** finish_timer: the countdown expired. In a plan the next phase is loaded (not
      started) and overtime begins, or at the last phase the plan completes; with
      no plan the legacy WORK/BREAK toggle runs and overtime begins. */
  function FinishTimer(s: State, now: int): (r: State)
    requires s.index >= -1
    ensures !r.running && r.log == s.log
    ensures r.overtimeStart == (if s.schedule == [] || s.index < |s.schedule| - 1 then Some(now) else None)
    ensures s.schedule != [] && s.index < |s.schedule| - 1 ==> r.schedule == s.schedule && AtPhase(r, s.index + 1)
    ensures s.schedule != [] && s.index >= |s.schedule| - 1 ==>
      r.schedule == [] && r.index == s.index && r.timeLeft == s.timeLeft && r.isBreak == s.isBreak
    ensures s.schedule == [] ==>
      r.schedule == [] && r.index == s.index && r.isBreak == !s.isBreak
      && r.timeLeft == (if r.isBreak then BreakTime else WorkTime)
    ensures Valid(s) ==> Valid(r)
  {
    var t := s.(running := false);
    if t.schedule != [] then
      if t.index < |t.schedule| - 1 then StartOvertime(NextStep(t), now)
      else NextStep(t)
    else
      StartOvertime(ToggleModeLegacy(t), now)
  }

  /** run_timer, one tick: count down one second while running; at zero, expire. */
  function Tick(s: State, now: int): (r: State)
    requires s.index >= -1
    ensures s.running && s.timeLeft > 0 ==> r == s.(timeLeft := s.timeLeft - 1)
    ensures !s.running && s.timeLeft > 0 ==> r == s
    ensures s.timeLeft == 0 ==> r == FinishTimer(s, now)
    ensures r.running ==> s.running && r.timeLeft == s.timeLeft - 1
    ensures Valid(s) ==> Valid(r)
  {
    if s.running && s.timeLeft > 0 then s.(timeLeft := s.timeLeft - 1)
    else if s.timeLeft == 0 then FinishTimer(s, now)
    else s
  }

  /** start_timer: a no-op while running; otherwise run, clear overtime and tick
      once at once, which expires a countdown already at zero. */
  function StartTimer(s: State, now: int): (r: State)
    requires s.index >= -1
    ensures s.running ==> r == s
    ensures !s.running && s.timeLeft > 0 ==>
      r == s.(running := true, overtimeStart := None, timeLeft := s.timeLeft - 1)
    ensures !s.running && s.timeLeft == 0 ==> r == FinishTimer(s, now)
    ensures Valid(s) ==> Valid(r)
  {
    if !s.running then Tick(StopOvertime(s.(running := true)), now) else s
  }

  /** reset_timer: stop, clear overtime and restore the full countdown of the loaded
      phase, or with no phase loaded the default of the current kind. */
  function ResetTimer(s: State): (r: State)
    ensures !r.running && r.overtimeStart == None
    ensures r.(running := s.running, overtimeStart := s.overtimeStart, timeLeft := s.timeLeft) == s
    ensures s.schedule != [] && 0 <= s.index < |s.schedule| ==> r.timeLeft == s.schedule[s.index].duration
    ensures !(s.schedule != [] && 0 <= s.index < |s.schedule|) ==> r.timeLeft == if s.isBreak then BreakTime else WorkTime
    ensures Valid(s) ==> Valid(r)
  {
    var t := StopOvertime(StopTimer(s));
    if t.schedule != [] && 0 <= t.index < |t.schedule| then
      t.(timeLeft := t.schedule[t.index].duration)
    else
      t.(timeLeft := if t.isBreak then BreakTime else WorkTime)
  }

  /** log_distraction: only during a running WORK countdown, append the time left
      (preceded by the header when the log file did not exist yet). */
  function LogDistraction(s: State, timestamp: string, fileExisted: bool): (r: State)
    ensures r.(log := s.log) == s
    ensures r.log != s.log <==> !s.isBreak && s.running
    ensures !s.isBreak && s.running ==>
      r.log == s.log + (if fileExisted then [] else [Header]) + [LogRow(timestamp, FormatTime(s.timeLeft))]
    ensures Valid(s) ==> Valid(r)
  {
    if !s.isBreak && s.running then
      var header := if fileExisted then [] else [Header];
      s.(log := s.log + header + [LogRow(timestamp, FormatTime(s.timeLeft))])
    else s
  }

  // Properties relating several operations

  /** Skipping forward and stepping back reloads the phase one started from, with
      its full countdown and no overtime. */
  lemma SkipThenPrevReloads(s: State)
    requires Valid(s) && s.schedule != [] && 0 <= s.index < |s.schedule| - 1
    ensures PrevStep(SkipStep(s)) == LoadStepByIndex(s, s.index)
  {
  }

  /** Stepping back and skipping forward reloads the phase one started from. */
  lemma PrevThenSkipReloads(s: State)
    requires Valid(s) && s.schedule != [] && s.index > 0
    ensures SkipStep(PrevStep(s)) == LoadStepByIndex(s, s.index)
  {
  }

  /** Each successful move changes the count of remaining phases by one. */
  lemma NavigationCountsSteps(s: State)
    requires Valid(s) && s.schedule != []
    ensures s.index < |s.schedule| - 1 ==> RemainingSteps(SkipStep(s)) == RemainingSteps(s) - 1
    ensures s.index > 0 ==> RemainingSteps(PrevStep(s)) == RemainingSteps(s) + 1
    ensures s.index < |s.schedule| - 1 ==> RemainingSteps(NextStep(s)) == RemainingSteps(s) - 1
  {
  }

  lemma StopTimerIdempotent(s: State)
    ensures StopTimer(StopTimer(s)) == StopTimer(s)
  {
  }

  lemma ResetTimerIdempotent(s: State)
    ensures ResetTimer(ResetTimer(s)) == ResetTimer(s)
  {
  }

  /** Two legacy toggles give back the original kind with its default countdown. */
  lemma ToggleTwice(s: State)
    ensures ToggleModeLegacy(ToggleModeLegacy(s)) == s.(timeLeft := if s.isBreak then BreakTime else WorkTime)
  {
  }

  /** The row a distraction appends records the countdown, readable back as seconds. */
  lemma LoggedTimeReadsBack(s: State, timestamp: string, fileExisted: bool)
    requires !s.isBreak && s.running
    ensures var r := LogDistraction(s, timestamp, fileExisted);
      |r.log| > 0 && r.log[|r.log| - 1].timestamp == timestamp
      && ParseTime(r.log[|r.log| - 1].timeRemaining) == Some(s.timeLeft)
  {
    ParseFormatRoundTrip(s.timeLeft);
  }

  // The host's view: commands and runs

  /** What the host delivers: a button of the window, or the one-second timer
      callback that root.after schedules. */
  datatype Command =
    | PlanButton(minutes: int)
    | PrevButton
    | SkipButton
    | StartButton
    | StopButton
    | ResetButton
    | DistractionButton(timestamp: string, fileExisted: bool)
    | TimerFired

  /** One command applied at clock reading `now`. */
  function Step(s: State, c: Command, now: int): (r: State)
    requires Valid(s)
    ensures Valid(r)
  {
    match c
    case PlanButton(minutes) => StartSmartPlan(s, minutes)
    case PrevButton => PrevStep(s)
    case SkipButton => SkipStep(s)
    case StartButton => StartTimer(s, now)
    case StopButton => StopTimer(s)
    case ResetButton => ResetTimer(s)
    case DistractionButton(timestamp, fileExisted) => LogDistraction(s, timestamp, fileExisted)
    case TimerFired => Tick(s, now)
  }

  /** The countdown reaches its end during command c. */
  predicate Expires(s: State, c: Command)
  {
    (c == StartButton && !s.running && s.timeLeft == 0) || (c == TimerFired && s.timeLeft == 0)
  }

  /** Command c starts the countdown, resets it, or loads a phase. */
  predicate Clears(s: State, c: Command)
  {
    match c
    case PlanButton(minutes) => minutes >= 25
    case PrevButton => s.schedule != [] && s.index > 0
    case SkipButton => s.schedule != [] && s.index < |s.schedule| - 1
    case StartButton => !s.running
    case ResetButton => true
    case _ => false
  }

  /** Overtime starts only when a countdown expires and a next phase (or the
      legacy toggle) is waiting; starting, resetting or navigating clears it; every
      other command leaves it as it was. */
  lemma OvertimeRule(s: State, c: Command, now: int)
    requires Valid(s)
    ensures Step(s, c, now).overtimeStart ==
      if Expires(s, c) then (if s.schedule == [] || s.index < |s.schedule| - 1 then Some(now) else None)
      else if Clears(s, c) then None
      else s.overtimeStart
  {
    InfeasibleIsEmpty(if c.PlanButton? then c.minutes else 0);
  }

  /** The countdown only starts through the start button. */
  lemma OnlyStartStarts(s: State, c: Command, now: int)
    requires Valid(s) && !s.running && Step(s, c, now).running
    ensures c == StartButton && s.timeLeft > 0
  {
  }

  /** The distraction log is append-only: no command removes or rewrites a row. */
  lemma LogOnlyGrows(s: State, c: Command, now: int)
    requires Valid(s)
    ensures |Step(s, c, now).log| >= |s.log| && Step(s, c, now).log[..|s.log|] == s.log
  {
  }

  function Run(s: State, commands: seq<(Command, int)>): (r: State)
    requires Valid(s)
    ensures Valid(r)
    decreases |commands|
  {
    if commands == [] then s else Run(Step(s, commands[0].0, commands[0].1), commands[1..])
  }

  // The end-to-end one-hour session

  /** n timer callbacks at the same clock reading. */
  function Ticks(s: State, n: nat, now: int): (r: State)
    requires Valid(s)
    ensures Valid(r)
    decreases n
  {
    if n == 0 then s else Ticks(Tick(s, now), n - 1, now)
  }

  /** While running, n callbacks with at least n seconds left just count down n. */
  lemma {:induction false} CountDown(s: State, n: nat, now: int)
    requires Valid(s) && s.running && n <= s.timeLeft
    ensures Ticks(s, n, now) == s.(timeLeft := s.timeLeft - n)
    decreases n
  {
    if n > 0 {
      CountDown(Tick(s, now), n - 1, now);
    }
  }

  /** Start the loaded phase and let it run out: start_timer, one callback per
      second left, then the callback that finds zero and expires. */
  function RunPhase(s: State, now: int): (r: State)
    requires Valid(s) && !s.running && s.timeLeft > 0
    ensures r == FinishTimer(s.(running := true, overtimeStart := None, timeLeft := 0), now)
  {
    var started := StartTimer(s, now);
    CountDown(started, started.timeLeft, now);
    Tick(Ticks(started, started.timeLeft, now), now)
  }

  /** The one-hour plan of the window's default start-up: each phase, once started
      and run out, pre-loads the next one stopped with overtime running, until the
      last expiry completes the plan with no overtime. */
  lemma OneHourSession(t1: int, t2: int, t3: int, t4: int)
    ensures var s0 := StartSmartPlan(Initial(), 60);
      && s0 == State(Schedule(60), 0, false, false, 1500, None, [])
      && var s1 := RunPhase(s0, t1);
      && s1 == State(Schedule(60), 1, true, false, 300, Some(t1), [])
      && var s2 := RunPhase(s1, t2);
      && s2 == State(Schedule(60), 2, false, false, 1500, Some(t2), [])
      && var s3 := RunPhase(s2, t3);
      && s3 == State(Schedule(60), 3, true, false, 300, Some(t3), [])
      && RunPhase(s3, t4) == State([], 3, true, false, 0, None, [])
  {
    OneHourPlan();
  }
}
