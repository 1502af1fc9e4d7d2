/** The decision at the heart of the antivirus job scheduler listener: from the
    flag that says whether an existing trigger must be re-registered and the
    trigger state the scheduler reports for the scan job, pick what to do. */
module Reconciler {

  /** Quartz trigger states, reduced to the two that the listener tests for
      and everything else (paused, blocked, error, complete). */
  datatype TriggerState = Normal | None | Other

  /** What the listener does about the job; Reschedule means unschedule, then schedule. */
  datatype Decision = NoAction | Schedule | Reschedule

  /** The mutating calls the listener makes on the scheduler plugin. */
  datatype Call = UnscheduleJob | ScheduleJob

  /** The branch of scheduleAutomaticUpgradesJob, read per caller: the
      post-initialization path (doReschedule) only ever re-registers a normal
      trigger, the install path only ever schedules a missing one. */
  function Decide(doReschedule: bool, state: TriggerState): (d: Decision)
    ensures state == Other ==> d == NoAction
    ensures doReschedule ==> d != Schedule && (d == Reschedule <==> state == Normal)
    ensures !doReschedule ==> d != Reschedule && (d == Schedule <==> state == None)
  {
    if doReschedule && state == Normal then Reschedule
    else if !doReschedule && state == None then Schedule
    else NoAction
  }

  /** The calls a decision stands for, in the order they are issued: every
      decision that acts ends with one schedule, and an unschedule can only
      come before it. */
  function Calls(d: Decision): (cs: seq<Call>)
    ensures |cs| <= 2
    ensures ScheduleJob in cs <==> d != NoAction
    ensures UnscheduleJob in cs <==> d == Reschedule
    ensures d != NoAction ==> cs[|cs| - 1] == ScheduleJob
    ensures forall i :: 0 <= i < |cs| - 1 ==> cs[i] == UnscheduleJob
  {
    match d
    case NoAction => []
    case Schedule => [ScheduleJob]
    case Reschedule => [UnscheduleJob, ScheduleJob]
  }

  /** The complete two-by-three decision table. */
  lemma DecisionTable()
    ensures Decide(true, Normal) == Reschedule
    ensures Decide(true, None) == NoAction
    ensures Decide(true, Other) == NoAction
    ensures Decide(false, Normal) == NoAction
    ensures Decide(false, None) == Schedule
    ensures Decide(false, Other) == NoAction
  {
  }

  /** A schedule is planned only for a job that has no trigger, or right after
      the unschedule that removes the existing one. */
  lemma PlannedScheduleOnlyOnFreeTrigger(doReschedule: bool, state: TriggerState)
    ensures var cs := Calls(Decide(doReschedule, state));
      ScheduleJob in cs ==> state == None || cs == [UnscheduleJob, ScheduleJob]
  {
  }
}
