/** The session planner of planner.py: SessionPlanner.generate_schedule turns a
    number of available minutes into an ordered list of WORK and BREAK phases by
    spending a minute budget greedily in three stages. */
module Planner {

  datatype Kind = Work | Break

  /** One scheduled interval. `duration` is in seconds; `caption` (the source's "label") is display text
      that the rest of the program carries through unchanged. */
  datatype Phase = Phase(kind: Kind, duration: nat, caption: string)

  const OpeningLabel: string := "기본 집중 🚀"
  const ShortBreakLabel: string := "짧은 휴식 ☕"
  const DeepFocusLabel: string := "깊은 집중 🔥"
  const FocusLabel: string := "집중 🧠"
  const RestLabel: string := "휴식 🌿"
  const WrapUpLabel: string := "마무리 🏁"

  /** Stage 1: the opening 25-minute WORK and its 5-minute BREAK. */
  const Opening: Phase := Phase(Work, 25 * 60, OpeningLabel)
  const ShortBreak: Phase := Phase(Break, 5 * 60, ShortBreakLabel)

  /** Stage 2 picks a 35/10 block when 45 minutes remain, a 25/5 block otherwise. */
  function PeakWorkMinutes(remaining: int): nat
  {
    if remaining >= 45 then 35 else 25
  }

  function PeakBreakMinutes(remaining: int): nat
  {
    if remaining >= 45 then 10 else 5
  }

  function PeakWork(remaining: int): Phase
  {
    if remaining >= 45 then Phase(Work, 35 * 60, DeepFocusLabel)
    else Phase(Work, 25 * 60, FocusLabel)
  }

  function PeakBreak(remaining: int): Phase
  {
    Phase(Break, PeakBreakMinutes(remaining) * 60, RestLabel)
  }

  /** The phases stage 2 appends when it is entered with `remaining` minutes. */
  function PeakPhases(remaining: int): seq<Phase>
    decreases remaining
  {
    if remaining < 25 then []
    else
      var afterWork := remaining - PeakWorkMinutes(remaining);
      if afterWork >= PeakBreakMinutes(remaining) then
        [PeakWork(remaining), PeakBreak(remaining)] + PeakPhases(afterWork - PeakBreakMinutes(remaining))
      else
        [PeakWork(remaining)]
  }

  /** The minutes still unspent when stage 2 stops. */
  function PeakLeftover(remaining: int): int
    decreases remaining
  {
    if remaining < 25 then remaining
    else
      var afterWork := remaining - PeakWorkMinutes(remaining);
      if afterWork >= PeakBreakMinutes(remaining) then
        PeakLeftover(afterWork - PeakBreakMinutes(remaining))
      else
        afterWork
  }

  /** One iteration of stage 2, unfolded. */
  lemma PeakUnfold(remaining: int)
    requires remaining >= 25
    ensures var afterWork := remaining - PeakWorkMinutes(remaining);
      if afterWork >= PeakBreakMinutes(remaining) then
        && PeakPhases(remaining) == [PeakWork(remaining), PeakBreak(remaining)] + PeakPhases(afterWork - PeakBreakMinutes(remaining))
        && PeakLeftover(remaining) == PeakLeftover(afterWork - PeakBreakMinutes(remaining))
      else
        PeakPhases(remaining) == [PeakWork(remaining)] && PeakLeftover(remaining) == afterWork
  {
  }

  /** Stage 3: one WORK spending all that is left, when at least 10 minutes are. */
  function WrapUp(remaining: int): seq<Phase>
  {
    if remaining >= 10 then [Phase(Work, remaining * 60, WrapUpLabel)] else []
  }

  /** The schedule generate_schedule returns, stage by stage. */
  function Schedule(totalMinutes: int): seq<Phase>
  {
    if totalMinutes < 25 then []
    else if totalMinutes - 25 < 5 then [Opening]
    else
      [Opening, ShortBreak] + PeakPhases(totalMinutes - 30) + WrapUp(PeakLeftover(totalMinutes - 30))
  }

  /** generate_schedule itself: a growing list and a budget decremented in a loop
      that exits early through `return` and `break`. */
  method GenerateSchedule(totalMinutes: int) returns (schedule: seq<Phase>)
    ensures schedule == Schedule(totalMinutes)
  {
    schedule := [];
    var remainingMinutes := totalMinutes;

    if remainingMinutes < 25 {
      assert Schedule(totalMinutes) == [];
      return [];
    }

    schedule := schedule + [Phase(Work, 25 * 60, OpeningLabel)];
    remainingMinutes := remainingMinutes - 25;
    if remainingMinutes >= 5 {
      schedule := schedule + [Phase(Break, 5 * 60, ShortBreakLabel)];
      remainingMinutes := remainingMinutes - 5;
    } else {
      assert schedule == [Opening] == Schedule(totalMinutes);
      return schedule;
    }

    ghost var opening := schedule;
    assert opening == [Opening, ShortBreak] && remainingMinutes == totalMinutes - 30;
    while remainingMinutes >= 25
      invariant schedule + PeakPhases(remainingMinutes) == opening + PeakPhases(totalMinutes - 30)
      invariant PeakLeftover(remainingMinutes) == PeakLeftover(totalMinutes - 30)
      decreases remainingMinutes
    {
      ghost var entered, before := remainingMinutes, schedule;
      PeakUnfold(entered);
      var workMin, breakMin;
      if remainingMinutes >= 45 {
        workMin, breakMin := 35, 10;
        schedule := schedule + [Phase(Work, workMin * 60, DeepFocusLabel)];
      } else {
        workMin, breakMin := 25, 5;
        schedule := schedule + [Phase(Work, workMin * 60, FocusLabel)];
      }
      assert schedule == before + [PeakWork(entered)];
      assert workMin == PeakWorkMinutes(entered) && breakMin == PeakBreakMinutes(entered);

      remainingMinutes := remainingMinutes - workMin;

      if remainingMinutes >= breakMin {
        schedule := schedule + [Phase(Break, breakMin * 60, RestLabel)];
        remainingMinutes := remainingMinutes - breakMin;
        assert schedule == before + [PeakWork(entered), PeakBreak(entered)];
      } else {
        break;
      }
    }
    assert schedule == opening + PeakPhases(totalMinutes - 30);
    assert remainingMinutes == PeakLeftover(totalMinutes - 30);
    ghost var stage2 := schedule;
    assert Schedule(totalMinutes) == opening + PeakPhases(totalMinutes - 30) + WrapUp(remainingMinutes);

    if remainingMinutes >= 10 {
      schedule := schedule + [Phase(Work, remainingMinutes * 60, WrapUpLabel)];
      remainingMinutes := 0;
    } else {
      assert schedule == stage2 + WrapUp(remainingMinutes);
    }
  }

  // Properties of the schedule

  /** Sum of the durations of a list of phases, in seconds. */
  function TotalSeconds(s: seq<Phase>): nat
  {
    if s == [] then 0 else s[0].duration + TotalSeconds(s[1..])
  }

  lemma {:induction false} TotalSecondsAppend(a: seq<Phase>, b: seq<Phase>)
    ensures TotalSeconds(a + b) == TotalSeconds(a) + TotalSeconds(b)
  {
    if a == [] {
      assert a + b == b;
    } else {
      assert (a + b)[1..] == a[1..] + b;
      TotalSecondsAppend(a[1..], b);
    }
  }

  /** WORK at even positions, BREAK at odd ones. */
  predicate Alternates(s: seq<Phase>)
  {
    forall i :: 0 <= i < |s| ==> s[i].kind == (if i % 2 == 0 then Work else Break)
  }

  /** Every duration is a positive whole number of minutes. */
  predicate WholeMinutes(s: seq<Phase>)
  {
    forall i :: 0 <= i < |s| ==> s[i].duration > 0 && s[i].duration % 60 == 0
  }

  /** Every 35-minute WORK is immediately followed by a 10-minute BREAK. */
  predicate DeepWorkPaired(s: seq<Phase>)
  {
    forall i :: 0 <= i < |s| && s[i].kind == Work && s[i].duration == 35 * 60 ==>
      i + 1 < |s| && s[i + 1].kind == Break && s[i + 1].duration == 10 * 60
  }

  /** A wrap-up phase can only be the last one: a WORK of 10 to 24 minutes. */
  predicate WrapUpLast(s: seq<Phase>)
  {
    forall i :: 0 <= i < |s| && s[i].caption == WrapUpLabel ==>
      i == |s| - 1 && s[i].kind == Work && 10 * 60 <= s[i].duration < 25 * 60
  }

  /** Stage 2 spends its budget exactly down to the leftover, which is never
      negative and below 25 minutes; when the stage stopped after a WORK it could
      not pair with a break (an odd number of phases), below 10 minutes. */
  lemma {:induction false} PeakBudget(remaining: int)
    requires remaining >= 0
    ensures 0 <= PeakLeftover(remaining) < 25
    ensures TotalSeconds(PeakPhases(remaining)) + PeakLeftover(remaining) * 60 == remaining * 60
    ensures |PeakPhases(remaining)| % 2 == 1 ==> PeakLeftover(remaining) < 10
    decreases remaining
  {
    if remaining >= 25 {
      var w := PeakWorkMinutes(remaining);
      var b := PeakBreakMinutes(remaining);
      PeakUnfold(remaining);
      var work := PeakWork(remaining);
      assert work.duration == w * 60;
      if remaining - w >= b {
        var pair := [work, PeakBreak(remaining)];
        var rest := PeakPhases(remaining - w - b);
        PeakBudget(remaining - w - b);
        TotalSecondsAppend(pair, rest);
        assert TotalSeconds(pair) == w * 60 + b * 60;
        assert |PeakPhases(remaining)| == 2 + |rest|;
      } else {
        assert TotalSeconds([work]) == w * 60;
      }
    }
  }

  /** The phase at position i of stage 2: WORK at even and BREAK at odd positions,
      whole minutes, never a wrap-up, and a 35-minute WORK always followed by a
      10-minute BREAK. */
  lemma {:induction false} PeakPhaseAt(remaining: int, i: int)
    requires 0 <= i < |PeakPhases(remaining)|
    ensures PeakPhases(remaining)[i].kind == (if i % 2 == 0 then Work else Break)
    ensures PeakPhases(remaining)[i].duration > 0 && PeakPhases(remaining)[i].duration % 60 == 0
    ensures PeakPhases(remaining)[i].caption != WrapUpLabel
    ensures PeakPhases(remaining)[i].kind == Work && PeakPhases(remaining)[i].duration == 35 * 60 ==>
      i + 1 < |PeakPhases(remaining)| && PeakPhases(remaining)[i + 1].kind == Break
      && PeakPhases(remaining)[i + 1].duration == 10 * 60
    decreases remaining
  {
    var afterWork := remaining - PeakWorkMinutes(remaining);
    var b := PeakBreakMinutes(remaining);
    if afterWork >= b && i >= 2 {
      var rest := PeakPhases(afterWork - b);
      assert PeakPhases(remaining) == [PeakWork(remaining), PeakBreak(remaining)] + rest;
      PeakPhaseAt(afterWork - b, i - 2);
    }
  }

  /** The schedule is empty exactly when fewer than 25 minutes are available. */
  lemma InfeasibleIsEmpty(totalMinutes: int)
    ensures Schedule(totalMinutes) == [] <==> totalMinutes < 25
  {
  }

  /** A feasible schedule opens with the standard 25-minute WORK; with 25 to 29
      minutes that WORK is all of it, otherwise the 5-minute BREAK follows. */
  lemma OpensWithStandardWork(totalMinutes: int)
    requires totalMinutes >= 25
    ensures |Schedule(totalMinutes)| >= 1 && Schedule(totalMinutes)[0] == Phase(Work, 1500, OpeningLabel)
    ensures totalMinutes < 30 <==> Schedule(totalMinutes) == [Phase(Work, 1500, OpeningLabel)]
    ensures totalMinutes >= 30 ==> |Schedule(totalMinutes)| >= 2 && Schedule(totalMinutes)[1] == Phase(Break, 300, ShortBreakLabel)
  {
  }

  /** The durations never add up to more than the available time, and less than
      10 minutes of a feasible budget is left unscheduled. */
  lemma BudgetRespected(totalMinutes: int)
    ensures totalMinutes >= 0 ==> TotalSeconds(Schedule(totalMinutes)) <= totalMinutes * 60
    ensures totalMinutes >= 25 ==> totalMinutes * 60 < TotalSeconds(Schedule(totalMinutes)) + 10 * 60
  {
    if totalMinutes >= 30 {
      var opening := [Opening, ShortBreak];
      var peak := PeakPhases(totalMinutes - 30);
      var wrapUp := WrapUp(PeakLeftover(totalMinutes - 30));
      PeakBudget(totalMinutes - 30);
      TotalSecondsAppend(opening, peak);
      TotalSecondsAppend(opening + peak, wrapUp);
      assert TotalSeconds(opening) == 1800;
      assert TotalSeconds(wrapUp) == if PeakLeftover(totalMinutes - 30) >= 10 then PeakLeftover(totalMinutes - 30) * 60 else 0;
    } else if totalMinutes >= 25 {
      assert TotalSeconds([Opening]) == 1500;
    }
  }

  /** The facts about position i of a schedule that the shape lemmas below collect. */
  lemma SchedulePhaseAt(totalMinutes: int, i: int)
    requires 0 <= i < |Schedule(totalMinutes)|
    ensures Schedule(totalMinutes)[i].kind == (if i % 2 == 0 then Work else Break)
    ensures Schedule(totalMinutes)[i].duration > 0 && Schedule(totalMinutes)[i].duration % 60 == 0
    ensures Schedule(totalMinutes)[i].caption == WrapUpLabel ==>
      i == |Schedule(totalMinutes)| - 1 && Schedule(totalMinutes)[i].kind == Work
      && 10 * 60 <= Schedule(totalMinutes)[i].duration < 25 * 60
    ensures Schedule(totalMinutes)[i].kind == Work && Schedule(totalMinutes)[i].duration == 35 * 60 ==>
      i + 1 < |Schedule(totalMinutes)| && Schedule(totalMinutes)[i + 1].kind == Break
      && Schedule(totalMinutes)[i + 1].duration == 10 * 60
  {
    var s := Schedule(totalMinutes);
    if totalMinutes >= 30 {
      var peak := PeakPhases(totalMinutes - 30);
      var leftover := PeakLeftover(totalMinutes - 30);
      assert s == [Opening, ShortBreak] + peak + WrapUp(leftover);
      PeakBudget(totalMinutes - 30);
      if 2 <= i < 2 + |peak| {
        assert s[i] == peak[i - 2];
        PeakPhaseAt(totalMinutes - 30, i - 2);
        if i + 1 < 2 + |peak| {
          assert s[i + 1] == peak[i - 1];
        }
      } else if i >= 2 + |peak| {
        assert s[i] == Phase(Work, leftover * 60, WrapUpLabel);
      }
    }
  }

  /** Phases strictly alternate, starting with WORK; in particular a wrap-up WORK
      never follows a WORK. */
  lemma PhasesAlternate(totalMinutes: int)
    ensures Alternates(Schedule(totalMinutes))
  {
    forall i | 0 <= i < |Schedule(totalMinutes)| {
      SchedulePhaseAt(totalMinutes, i);
    }
  }

  /** Every phase lasts a positive whole number of minutes. */
  lemma DurationsAreWholeMinutes(totalMinutes: int)
    ensures WholeMinutes(Schedule(totalMinutes))
  {
    forall i | 0 <= i < |Schedule(totalMinutes)| {
      SchedulePhaseAt(totalMinutes, i);
    }
  }

  /** A 35-minute WORK is chosen only with 45 minutes in hand, so its 10-minute
      BREAK always follows it. */
  lemma DeepWorkIsPaired(totalMinutes: int)
    ensures DeepWorkPaired(Schedule(totalMinutes))
  {
    forall i | 0 <= i < |Schedule(totalMinutes)| {
      SchedulePhaseAt(totalMinutes, i);
    }
  }

  /** The wrap-up WORK occurs at most once, as the last phase, lasting 10 to 24 minutes. */
  lemma WrapUpIsLast(totalMinutes: int)
    ensures WrapUpLast(Schedule(totalMinutes))
  {
    forall i | 0 <= i < |Schedule(totalMinutes)| {
      SchedulePhaseAt(totalMinutes, i);
    }
  }

  // Exact outputs, including the four preset buttons of the window (1 to 4 hours)

  lemma MinimalPlan()
    ensures Schedule(25) == [Phase(Work, 1500, OpeningLabel)]
  {
  }

  lemma OneHourPlan()
    ensures Schedule(60) == [Phase(Work, 1500, OpeningLabel), Phase(Break, 300, ShortBreakLabel),
                             Phase(Work, 1500, FocusLabel), Phase(Break, 300, RestLabel)]
  {
  }

  lemma TwoHourPlan()
    ensures Schedule(120) == [Phase(Work, 1500, OpeningLabel), Phase(Break, 300, ShortBreakLabel),
                              Phase(Work, 2100, DeepFocusLabel), Phase(Break, 600, RestLabel),
                              Phase(Work, 2100, DeepFocusLabel), Phase(Break, 600, RestLabel)]
  {
  }

  lemma ThreeHourPlan()
    ensures Schedule(180) == [Phase(Work, 1500, OpeningLabel), Phase(Break, 300, ShortBreakLabel),
                              Phase(Work, 2100, DeepFocusLabel), Phase(Break, 600, RestLabel),
                              Phase(Work, 2100, DeepFocusLabel), Phase(Break, 600, RestLabel),
                              Phase(Work, 2100, DeepFocusLabel), Phase(Break, 600, RestLabel),
                              Phase(Work, 900, WrapUpLabel)]
  {
  }

  lemma FourHourPlan()
    ensures Schedule(240) == [Phase(Work, 1500, OpeningLabel), Phase(Break, 300, ShortBreakLabel),
                              Phase(Work, 2100, DeepFocusLabel), Phase(Break, 600, RestLabel),
                              Phase(Work, 2100, DeepFocusLabel), Phase(Break, 600, RestLabel),
                              Phase(Work, 2100, DeepFocusLabel), Phase(Break, 600, RestLabel),
                              Phase(Work, 2100, DeepFocusLabel), Phase(Break, 600, RestLabel),
                              Phase(Work, 1500, FocusLabel), Phase(Break, 300, RestLabel)]
  {
  }
}
