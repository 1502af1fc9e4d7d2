/** The antivirus job scheduler listener: keeps the scan job scheduled after
    the antivirus application is installed, and re-registers its trigger when
    the listener is initialized again after an upgrade. */
module Listener {
  import opened Reconciler
  import opened Scheduling

  /** The id of the application-antivirus-api extension. */
  const AntivirusApiId: string := "com.xwiki.antivirus:application-antivirus-api"

  /** The listener's observable result: normal completion or an error thrown
      to its caller (an initialization failure, or a runtime error on the event). */
  datatype Outcome = Done | Failed

  /** Events delivered to the listener; only the first one is acted upon. */
  datatype Event = ExtensionInstalledEvent | OtherEvent

  datatype Run = Run(outcome: Outcome, store: Store)

  /** scheduleAutomaticUpgradesJob: read the trigger state, decide, and issue
      the decided calls, stopping at the first failure, which is reported. */
  function Reconciled(doReschedule: bool, g: Store): (r: Run)
    ensures r.store.faults == g.faults
    ensures g.faults.lookup ==> r == Run(Failed, g)
    ensures var plan := Calls(Decide(doReschedule, g.state));
      |g.log| <= |r.store.log| <= |g.log| + |plan| &&
      r.store.log == g.log + plan[..|r.store.log| - |g.log|]
    ensures r.outcome == Done ==> r.store.log == g.log + Calls(Decide(doReschedule, g.state))
    ensures var plan := Calls(Decide(doReschedule, g.state));
      r.outcome == Done <==> !g.faults.lookup && forall i :: 0 <= i < |plan| ==> !Fails(plan[i], g.faults)
  {
    match Lookup(g)
    case Unresolved => Run(Failed, g)
    case Resolved(state) =>
      var a := Apply(Calls(Decide(doReschedule, state)), g);
      Run(if a.ok then Done else Failed, a.store)
  }

  /** initialize: reschedules, but only when a request context exists (not at startup). */
  function AfterInitialize(contextAvailable: bool, g: Store): Run
  {
    if contextAvailable then Reconciled(true, g) else Run(Done, g)
  }

  /** onEvent: schedules if needed, but only for the installation of the antivirus API itself. */
  function AfterEvent(event: Event, extensionId: string, g: Store): Run
  {
    if event == ExtensionInstalledEvent && extensionId == AntivirusApiId then Reconciled(false, g)
    else Run(Done, g)
  }

  /** What reaches the listener over its lifetimes: an initialization of the
      component (with or without a request context), or an observed event. */
  datatype Lifecycle = Initialized(contextAvailable: bool) | Delivered(event: Event, extensionId: string)

  function Step(e: Lifecycle, g: Store): Run
  {
    match e
    case Initialized(contextAvailable) => AfterInitialize(contextAvailable, g)
    case Delivered(event, extensionId) => AfterEvent(event, extensionId, g)
  }

  /** One lifecycle step together with the scheduler faults in effect while it runs. */
  datatype Moment = Moment(step: Lifecycle, faults: Faults)

  /** The scheduler after a series of lifecycle steps, with faults that may
      change from step to step. Errors are reported and nothing is retried:
      the next step starts from whatever scheduler state the failed step left. */
  function Deliver(ms: seq<Moment>, g: Store): Store
    decreases |ms|
  {
    if ms == [] then g else Deliver(ms[1..], Step(ms[0].step, g.(faults := ms[0].faults)).store)
  }

  /** The listener component, holding the scheduler it was given. */
  class JobSchedulerListener {
    const scheduler: Scheduler

    constructor (scheduler: Scheduler)
      ensures this.scheduler == scheduler
    {
      this.scheduler := scheduler;
    }

    method ScheduleAutomaticUpgradesJob(doReschedule: bool) returns (outcome: Outcome)
      modifies scheduler
      ensures Run(outcome, scheduler.Abstract()) == Reconciled(doReschedule, old(scheduler.Abstract()))
    {
      var jobState := scheduler.JobStatus();
      if jobState.Unresolved? {
        return Failed;
      }
      ghost var g := old(scheduler.Abstract());
      var ok := true;
      if doReschedule && jobState.state == Normal {
        ok := scheduler.Unschedule();
        if ok {
          ok := scheduler.Schedule();
        }
        ghost var p := Perform(UnscheduleJob, g);
        assert Apply([UnscheduleJob, ScheduleJob], g) ==
          if p.ok then Apply([ScheduleJob], p.store) else Applied(false, p.store);
      } else if !doReschedule && jobState.state == None {
        ok := scheduler.Schedule();
      }
      outcome := if ok then Done else Failed;
    }

    method Initialize(contextAvailable: bool) returns (outcome: Outcome)
      modifies scheduler
      ensures Run(outcome, scheduler.Abstract()) == AfterInitialize(contextAvailable, old(scheduler.Abstract()))
    {
      outcome := Done;
      if contextAvailable {
        outcome := ScheduleAutomaticUpgradesJob(true);
      }
    }

    method OnEvent(event: Event, extensionId: string) returns (outcome: Outcome)
      modifies scheduler
      ensures Run(outcome, scheduler.Abstract()) == AfterEvent(event, extensionId, old(scheduler.Abstract()))
    {
      outcome := Done;
      if event == ExtensionInstalledEvent && extensionId == AntivirusApiId {
        outcome := ScheduleAutomaticUpgradesJob(false);
      }
    }
  }
}
