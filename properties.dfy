/** What the listener promises about the calls it makes on the scheduler. */
module ListenerProperties {
  import opened Reconciler
  import opened Scheduling
  import opened Listener

  /** The calls a reconciliation added to the scheduler's log. */
  function Issued(g: Store, r: Run): seq<Call>
    requires |g.log| <= |r.store.log|
  {
    r.store.log[|g.log|..]
  }

  /** Post-initialization on a normal trigger: exactly one unschedule and then
      one schedule, nothing in between, unless the unschedule fails, in which
      case the schedule is not attempted. */
  lemma RescheduleOnNormal(g: Store)
    requires g.state == Normal && !g.faults.lookup
    ensures var r := Reconciled(true, g);
      r.store.log == g.log + (if g.faults.unschedule then [UnscheduleJob] else [UnscheduleJob, ScheduleJob]) &&
      (r.outcome == Done <==> !g.faults.unschedule && !g.faults.schedule) &&
      (r.outcome == Done ==> r.store.state == Normal && r.store.triggers == 1)
  {
    ApplyTwo(UnscheduleJob, ScheduleJob, g);
    ApplyOne(ScheduleJob, Perform(UnscheduleJob, g).store);
  }

  /** Install on a job without trigger: exactly one schedule, never an unschedule. */
  lemma ScheduleOnNone(g: Store)
    requires g.state == None && !g.faults.lookup
    ensures var r := Reconciled(false, g);
      r.store.log == g.log + [ScheduleJob] &&
      (r.outcome == Done <==> !g.faults.schedule) &&
      (r.outcome == Done ==> r.store.state == Normal && r.store.triggers == g.triggers + 1)
  {
    ApplyOne(ScheduleJob, g);
  }

  /** Every other combination, Other states included, makes no call and leaves
      the scheduler as it was; only a failed lookup is reported. */
  lemma NothingElseHappens(doReschedule: bool, g: Store)
    requires !(doReschedule && g.state == Normal) && !(!doReschedule && g.state == None)
    ensures Reconciled(doReschedule, g) == Run(if g.faults.lookup then Failed else Done, g)
  {
  }

  /** initialize does nothing without a request context, and reschedules with one. */
  lemma InitializeGuard(contextAvailable: bool, g: Store)
    ensures !contextAvailable ==> AfterInitialize(contextAvailable, g) == Run(Done, g)
    ensures contextAvailable ==> AfterInitialize(contextAvailable, g) == Reconciled(true, g)
  {
  }

  /** onEvent ignores every event but the installation of the antivirus API
      itself, and reconciles without rescheduling for that one. */
  lemma OnEventFilter(event: Event, extensionId: string, g: Store)
    ensures event != ExtensionInstalledEvent || extensionId != AntivirusApiId ==>
      AfterEvent(event, extensionId, g) == Run(Done, g)
    ensures event == ExtensionInstalledEvent && extensionId == AntivirusApiId ==>
      AfterEvent(event, extensionId, g) == Reconciled(false, g)
  {
  }

  /** Any call issued is either the one schedule of a job without trigger, or
      the schedule that follows a successful unschedule. */
  lemma ScheduleOnlyOnFreeTrigger(doReschedule: bool, g: Store)
    requires Consistent(g)
    ensures var r := Reconciled(doReschedule, g);
      var issued := Issued(g, r);
      ScheduleJob in issued ==>
        (g.state == None && g.triggers == 0 && issued == [ScheduleJob]) ||
        (issued == [UnscheduleJob, ScheduleJob] && !g.faults.unschedule)
  {
  }

  /** The install path never unschedules. */
  lemma InstallNeverUnschedules(g: Store)
    ensures var r := Reconciled(false, g);
      UnscheduleJob !in Issued(g, r)
  {
  }

  /** A failed unschedule is the last call made: the schedule is not attempted,
      the failure is reported, and the existing trigger survives untouched. */
  lemma FailedUnscheduleStops(doReschedule: bool, g: Store)
    requires g.faults.unschedule
    ensures var r := Reconciled(doReschedule, g);
      UnscheduleJob in Issued(g, r) ==>
        Issued(g, r) == [UnscheduleJob] && r.outcome == Failed &&
        r.store.state == g.state && r.store.triggers == g.triggers
  {
  }

  /** A failed schedule is reported and no compensating call follows it; when
      it came after a successful unschedule, the job is left without trigger. */
  lemma FailedScheduleNotCompensated(doReschedule: bool, g: Store)
    requires g.faults.schedule
    ensures var r := Reconciled(doReschedule, g);
      var issued := Issued(g, r);
      ScheduleJob in issued ==>
        r.outcome == Failed && issued[|issued| - 1] == ScheduleJob &&
        (UnscheduleJob in issued ==> r.store.state == None && r.store.triggers == 0)
  {
    if Decide(doReschedule, g.state) == Reschedule {
      ApplyTwo(UnscheduleJob, ScheduleJob, g);
      ApplyOne(ScheduleJob, Perform(UnscheduleJob, g).store);
    } else if Decide(doReschedule, g.state) == Schedule {
      ApplyOne(ScheduleJob, g);
    }
    var r := Reconciled(doReschedule, g);
    var plan := Calls(Decide(doReschedule, g.state));
    assert Issued(g, r) == plan[..|r.store.log| - |g.log|];
  }

  /** A reconciliation never adds a trigger to a job that already has one. */
  lemma ReconcileKeepsSingleTrigger(doReschedule: bool, g: Store)
    requires Consistent(g)
    ensures var r := Reconciled(doReschedule, g);
      Consistent(r.store) && r.store.triggers <= if g.triggers == 0 then 1 else g.triggers
  {
    if Decide(doReschedule, g.state) == Reschedule {
      ApplyTwo(UnscheduleJob, ScheduleJob, g);
      ApplyOne(ScheduleJob, Perform(UnscheduleJob, g).store);
    } else if Decide(doReschedule, g.state) == Schedule {
      ApplyOne(ScheduleJob, g);
    }
  }

  /** At most one trigger for the scan job, whatever the lifecycle and
      whichever scheduler operations fail at each step. */
  lemma {:induction false} DeliverKeepsSingleTrigger(ms: seq<Moment>, g: Store)
    requires Consistent(g) && g.triggers <= 1
    ensures Consistent(Deliver(ms, g)) && Deliver(ms, g).triggers <= 1
    decreases |ms|
  {
    if ms != [] {
      var h := g.(faults := ms[0].faults);
      match ms[0].step {
        case Initialized(contextAvailable) =>
          if contextAvailable { ReconcileKeepsSingleTrigger(true, h); }
        case Delivered(event, extensionId) =>
          if event == ExtensionInstalledEvent && extensionId == AntivirusApiId {
            ReconcileKeepsSingleTrigger(false, h);
          }
      }
      DeliverKeepsSingleTrigger(ms[1..], Step(ms[0].step, h).store);
    }
  }

  /** Two installs in a row against a scheduler that reflects its own updates:
      the second one sees a normal trigger and does nothing. */
  lemma InstallTwice(g: Store)
    requires g.state == None && !g.faults.lookup && !g.faults.schedule
    ensures var first := Reconciled(false, g);
      var second := Reconciled(false, first.store);
      first.outcome == Done && first.store.state == Normal &&
      second == Run(Done, first.store) && second.store.log == g.log + [ScheduleJob]
  {
    ScheduleOnNone(g);
    NothingElseHappens(false, Reconciled(false, g).store);
  }

  predicate AllInstalls(ms: seq<Moment>)
  {
    forall i :: 0 <= i < |ms| ==> ms[i].step == Delivered(ExtensionInstalledEvent, AntivirusApiId)
  }

  predicate AllInitializations(ms: seq<Moment>)
  {
    forall i :: 0 <= i < |ms| ==> ms[i].step.Initialized?
  }

  /** Installs on a job that already has a trigger change nothing, whatever fails. */
  lemma {:induction false} InstallsOnTriggerChangeNothing(ms: seq<Moment>, g: Store)
    requires AllInstalls(ms) && g.state != None
    ensures var h := Deliver(ms, g);
      h.state == g.state && h.triggers == g.triggers && h.log == g.log
    decreases |ms|
  {
    if ms != [] {
      assert ms[0].step == Delivered(ExtensionInstalledEvent, AntivirusApiId);
      NothingElseHappens(false, g.(faults := ms[0].faults));
      assert AllInstalls(ms[1..]) by {
        forall i | 0 <= i < |ms[1..]| ensures ms[1..][i].step == Delivered(ExtensionInstalledEvent, AntivirusApiId) {
          assert ms[1..][i] == ms[i + 1];
        }
      }
      InstallsOnTriggerChangeNothing(ms[1..], g.(faults := ms[0].faults));
    }
  }

  /** However often the install is seen, the job is scheduled exactly once,
      provided the first install can read the state and schedule. */
  lemma {:induction false} RepeatedInstallSchedulesOnce(ms: seq<Moment>, g: Store)
    requires AllInstalls(ms) && |ms| >= 1
    requires g.state == None && !ms[0].faults.lookup && !ms[0].faults.schedule
    ensures Deliver(ms, g).log == g.log + [ScheduleJob] && Deliver(ms, g).state == Normal
  {
    assert ms[0].step == Delivered(ExtensionInstalledEvent, AntivirusApiId);
    var h := g.(faults := ms[0].faults);
    ScheduleOnNone(h);
    assert AllInstalls(ms[1..]) by {
      forall i | 0 <= i < |ms[1..]| ensures ms[1..][i].step == Delivered(ExtensionInstalledEvent, AntivirusApiId) {
        assert ms[1..][i] == ms[i + 1];
      }
    }
    InstallsOnTriggerChangeNothing(ms[1..], Reconciled(false, h).store);
  }

  /** Initializations never schedule a job that has no trigger, whatever the faults. */
  lemma {:induction false} InitializationsLeaveFreeJob(ms: seq<Moment>, g: Store)
    requires AllInitializations(ms) && g.state == None
    ensures var h := Deliver(ms, g);
      h.state == None && h.triggers == g.triggers && h.log == g.log
    decreases |ms|
  {
    if ms != [] {
      assert ms[0].step.Initialized?;
      NothingElseHappens(true, g.(faults := ms[0].faults));
      assert AllInitializations(ms[1..]) by {
        forall i | 0 <= i < |ms[1..]| ensures ms[1..][i].step.Initialized? {
          assert ms[1..][i] == ms[i + 1];
        }
      }
      InitializationsLeaveFreeJob(ms[1..], g.(faults := ms[0].faults));
    }
  }

  /** A reschedule whose schedule fails after the unschedule took effect leaves
      the job without trigger, and no later initialization repairs it, even once
      the scheduler works again: with doReschedule a None state means no action.
      Only a new install of the antivirus API schedules the job again. */
  lemma LostJobNotRepairedByInitialization(g: Store, ms: seq<Moment>)
    requires Consistent(g) && g.state == Normal
    requires !g.faults.lookup && !g.faults.unschedule && g.faults.schedule
    requires AllInitializations(ms)
    ensures var lost := Reconciled(true, g);
      lost.outcome == Failed && lost.store.state == None && lost.store.triggers == 0 &&
      Deliver(ms, lost.store).state == None && Deliver(ms, lost.store).triggers == 0 &&
      Deliver(ms, lost.store).log == g.log + [UnscheduleJob, ScheduleJob]
  {
    RescheduleOnNormal(g);
    FailedScheduleNotCompensated(true, g);
    InitializationsLeaveFreeJob(ms, Reconciled(true, g).store);
  }

  /** A fresh install seen twice, then events the listener ignores. */
  method FreshInstallScenario()
  {
    var scheduler := new Scheduler(None, 0, Faults(false, false, false));
    var listener := new JobSchedulerListener(scheduler);
    ScheduleOnNone(scheduler.Abstract());
    var outcome := listener.OnEvent(ExtensionInstalledEvent, AntivirusApiId);
    assert outcome == Done && scheduler.log == [ScheduleJob] && scheduler.state == Normal;

    NothingElseHappens(false, scheduler.Abstract());
    outcome := listener.OnEvent(ExtensionInstalledEvent, AntivirusApiId);
    OnEventFilter(OtherEvent, AntivirusApiId, scheduler.Abstract());
    outcome := listener.OnEvent(OtherEvent, AntivirusApiId);
    assert outcome == Done && scheduler.log == [ScheduleJob] && scheduler.triggers == 1;
  }

  /** Startup without a request context, then the initialization that follows an upgrade. */
  method UpgradeRepairScenario()
  {
    var scheduler := new Scheduler(Normal, 1, Faults(false, false, false));
    var listener := new JobSchedulerListener(scheduler);
    var outcome := listener.Initialize(false);
    assert outcome == Done && scheduler.log == [];

    RescheduleOnNormal(scheduler.Abstract());
    outcome := listener.Initialize(true);
    assert outcome == Done && scheduler.log == [UnscheduleJob, ScheduleJob];
    assert scheduler.state == Normal && scheduler.triggers == 1;
  }

  /** An upgrade whose re-registration fails half way: the job is left
      without trigger and the failure reaches the caller. */
  method FailedRescheduleScenario()
  {
    var scheduler := new Scheduler(Normal, 1, Faults(false, false, true));
    var listener := new JobSchedulerListener(scheduler);
    RescheduleOnNormal(scheduler.Abstract());
    FailedScheduleNotCompensated(true, scheduler.Abstract());
    var outcome := listener.Initialize(true);
    assert outcome == Failed && scheduler.log == [UnscheduleJob, ScheduleJob];
    assert scheduler.state == None && scheduler.triggers == 0;
  }
}
