# Antivirus job scheduler listener, modelled in Dafny

The antivirus application keeps one recurring scan job ("AntivirusJob") scheduled in the
XWiki scheduler plugin. `AntivirusJobSchedulerListener` does this from two places:

- `initialize()`, run when the listener component is initialized (which is also what happens
  after the extension is upgraded), re-registers a trigger that is in the Quartz state
  `NORMAL` by unscheduling and then scheduling the job. It does this only when a request
  context exists, so that nothing happens at wiki startup.
- `onEvent()`, run on `ExtensionInstalledEvent`, schedules the job when its trigger state is
  `NONE`, but only for the installation of `com.xwiki.antivirus:application-antivirus-api`.

Both go through `scheduleAutomaticUpgradesJob(doReschedule)`, which reads the trigger state
and picks one of: unschedule then schedule (`doReschedule` and `NORMAL`), schedule only
(not `doReschedule` and `NONE`), or nothing.

The project has four modules:

- `Reconciler` (`reconciler.dfy`): trigger states reduced to `Normal | None | Other`, the
  decision function `Decide`, and `Calls`, the calls each decision stands for.
- `Scheduling` (`scheduler.dfy`): the scheduler plugin as a recording test double. `Store` is
  its abstract value: trigger state, number of registered triggers, which operations fail,
  and the log of mutating calls received. `Perform` and `Apply` give the meaning of one call
  and of a sequence of calls that stops at the first failure. `Scheduler` is the same thing
  as a class whose fields the calls update in place.
- `Listener` (`listener.dfy`): the pure specification of the three listener operations
  (`Reconciled`, `AfterInitialize`, `AfterEvent`), a fold `Deliver` over any series of
  initializations and events, each step run with its own scheduler faults, and the class `JobSchedulerListener` whose methods make the
  calls step by step and are proved to match the specification.
- `ListenerProperties` (`properties.dfy`): the lemmas about call order, call counts,
  filtering, failures, idempotence of the install path and the single-trigger invariant,
  plus three client scenarios that use the classes.

Semantics of the scheduler double (the real plugin is not part of this model): within one
step a failing operation fails on every call, and across steps the faults may change; every schedule or unschedule call is logged, failed ones too;
a failed call changes nothing else; a successful schedule makes the state `Normal` and adds
one trigger; a successful unschedule makes the state `None` and removes every trigger.
`triggers` is there so that stacking a second schedule on a live trigger would show in the
model. Failures are one error outcome, `Failed`, which the listener operations return to
their caller; this stands for `InitializationException` from `initialize()` and
`RuntimeException` from `onEvent()`.

Recovery after a failed reschedule: when the unschedule succeeds and the schedule then
fails, the job is left with no trigger (state `NONE`). A later initialization does not
repair this, because with `doReschedule` a `NONE` state leads to no action (lines 145 and
148); only a new install of the antivirus API schedules the job again.
`LostJobNotRepairedByInitialization` proves this for any series of later initializations,
even ones where the scheduler works again. Relying on a later initialization to repair the
job does not work with this decision table; the model follows the code.

## Model

| member | source | states |
|---|---|---|
| Reconciler.Decide | application-antivirus-api/src/main/java/com/xwiki/antivirus/internal/AntivirusJobSchedulerListener.java:145-150 | Other states never lead to an action; with doReschedule the only possible action is a reschedule, exactly when the state is Normal; without it the only possible action is a schedule, exactly when the state is None |
| Reconciler.Calls | application-antivirus-api/src/main/java/com/xwiki/antivirus/internal/AntivirusJobSchedulerListener.java:145-149 | a decision issues at most two calls; a schedule exactly when it acts, an unschedule only for a reschedule; schedule comes last and anything before it is an unschedule |
| Reconciler.DecisionTable | application-antivirus-api/src/main/java/com/xwiki/antivirus/internal/AntivirusJobSchedulerListener.java:145-150 | all six rows of the doReschedule × trigger-state table |
| Reconciler.PlannedScheduleOnlyOnFreeTrigger | application-antivirus-api/src/main/java/com/xwiki/antivirus/internal/AntivirusJobSchedulerListener.java:145-149 | a planned schedule is either for a job in state None or the second half of unschedule-then-schedule |
| Scheduling.Perform | application-antivirus-api/src/main/java/com/xwiki/antivirus/internal/AntivirusJobSchedulerListener.java:146-149 | a call succeeds exactly when its operation is not faulty; it is always logged; a failed call changes neither state nor triggers; a successful one leaves state and trigger count consistent |
| Scheduling.Apply | application-antivirus-api/src/main/java/com/xwiki/antivirus/internal/AntivirusJobSchedulerListener.java:145-149 | the calls logged are a prefix of the plan; the whole plan goes through exactly when none of its calls fails; otherwise the last call logged is the failing one and every call logged before it went through, so nothing is issued after a failure; consistency is preserved |
| Scheduling.Scheduler.JobStatus | application-antivirus-api/src/main/java/com/xwiki/antivirus/internal/AntivirusJobSchedulerListener.java:140-143 | the trigger state is returned when the lookup works and the lookup fails otherwise |
| Scheduling.Scheduler.Schedule | application-antivirus-api/src/main/java/com/xwiki/antivirus/internal/AntivirusJobSchedulerListener.java:149 | the new scheduler state and the success flag are those of Perform(ScheduleJob) on the old state |
| Scheduling.Scheduler.Unschedule | application-antivirus-api/src/main/java/com/xwiki/antivirus/internal/AntivirusJobSchedulerListener.java:146 | the new scheduler state and the success flag are those of Perform(UnscheduleJob) on the old state |
| Listener.Reconciled | application-antivirus-api/src/main/java/com/xwiki/antivirus/internal/AntivirusJobSchedulerListener.java:136-151 | a failed lookup is reported and changes nothing; otherwise the calls issued are a prefix of the decided plan, and the whole plan on success; the outcome is Done exactly when the lookup works and no call of the plan fails |
| Listener.JobSchedulerListener.ScheduleAutomaticUpgradesJob | application-antivirus-api/src/main/java/com/xwiki/antivirus/internal/AntivirusJobSchedulerListener.java:136-151 | the straight-line calls on the scheduler give exactly the outcome and the new scheduler state of Reconciled |
| Listener.JobSchedulerListener.Initialize | application-antivirus-api/src/main/java/com/xwiki/antivirus/internal/AntivirusJobSchedulerListener.java:104-119 | outcome and new scheduler state are those of AfterInitialize |
| Listener.JobSchedulerListener.OnEvent | application-antivirus-api/src/main/java/com/xwiki/antivirus/internal/AntivirusJobSchedulerListener.java:122-134 | outcome and new scheduler state are those of AfterEvent |
| ListenerProperties.RescheduleOnNormal | application-antivirus-api/src/main/java/com/xwiki/antivirus/internal/AntivirusJobSchedulerListener.java:145-147 | rescheduling a Normal trigger appends exactly [UnscheduleJob, ScheduleJob], or only [UnscheduleJob] when that fails; success exactly when neither fails, and then one Normal trigger |
| ListenerProperties.ScheduleOnNone | application-antivirus-api/src/main/java/com/xwiki/antivirus/internal/AntivirusJobSchedulerListener.java:148-149 | installing over state None appends exactly [ScheduleJob]; success exactly when the schedule works, and then the state is Normal with one more trigger |
| ListenerProperties.NothingElseHappens | application-antivirus-api/src/main/java/com/xwiki/antivirus/internal/AntivirusJobSchedulerListener.java:145-150 | every other (doReschedule, state) pair, Other included, leaves the whole scheduler unchanged; only a failed lookup is reported |
| ListenerProperties.InitializeGuard | application-antivirus-api/src/main/java/com/xwiki/antivirus/internal/AntivirusJobSchedulerListener.java:111-118 | without a request context initialize changes nothing and succeeds; with one it is the reconciliation with doReschedule, its error included |
| ListenerProperties.OnEventFilter | application-antivirus-api/src/main/java/com/xwiki/antivirus/internal/AntivirusJobSchedulerListener.java:122-134 | any other event or extension id changes nothing; the antivirus API install is the reconciliation without doReschedule, its error included |
| ListenerProperties.ScheduleOnlyOnFreeTrigger | application-antivirus-api/src/main/java/com/xwiki/antivirus/internal/AntivirusJobSchedulerListener.java:145-149 | a schedule issued is either the single call over a job with no trigger, or follows a successful unschedule with nothing between |
| ListenerProperties.InstallNeverUnschedules | application-antivirus-api/src/main/java/com/xwiki/antivirus/internal/AntivirusJobSchedulerListener.java:148-149 | the install path never issues an unschedule |
| ListenerProperties.FailedUnscheduleStops | application-antivirus-api/src/main/java/com/xwiki/antivirus/internal/AntivirusJobSchedulerListener.java:146-147 | when the unschedule fails it is the only call issued, the failure is reported, and trigger state and trigger count are left as they were |
| ListenerProperties.FailedScheduleNotCompensated | application-antivirus-api/src/main/java/com/xwiki/antivirus/internal/AntivirusJobSchedulerListener.java:145-151 | a failed schedule is reported and is the last call; after a successful unschedule it leaves the job without trigger |
| ListenerProperties.ReconcileKeepsSingleTrigger | application-antivirus-api/src/main/java/com/xwiki/antivirus/internal/AntivirusJobSchedulerListener.java:145-149 | one reconciliation keeps state and trigger count consistent and only ever adds a trigger to a job that had none |
| ListenerProperties.DeliverKeepsSingleTrigger | application-antivirus-api/src/main/java/com/xwiki/antivirus/internal/AntivirusJobSchedulerListener.java:104-151 | over any series of initializations and events, with scheduler faults that may differ at every step, the job never has more than one trigger |
| ListenerProperties.InstallTwice | application-antivirus-api/src/main/java/com/xwiki/antivirus/internal/AntivirusJobSchedulerListener.java:148-149 | two installs in a row over state None: the first schedules, the second sees Normal and does nothing; one ScheduleJob in all |
| ListenerProperties.InstallsOnTriggerChangeNothing | application-antivirus-api/src/main/java/com/xwiki/antivirus/internal/AntivirusJobSchedulerListener.java:126-128 | any number of antivirus API installs over a state other than None leave trigger state, trigger count and call log unchanged, whatever fails at each step |
| ListenerProperties.RepeatedInstallSchedulesOnce | application-antivirus-api/src/main/java/com/xwiki/antivirus/internal/AntivirusJobSchedulerListener.java:126-149 | any positive number of antivirus API installs over None, the first of which can read the state and schedule, add exactly one ScheduleJob and leave the state Normal, whatever fails in the later ones |
| ListenerProperties.InitializationsLeaveFreeJob | application-antivirus-api/src/main/java/com/xwiki/antivirus/internal/AntivirusJobSchedulerListener.java:104-119 | any number of initializations over a job with no trigger make no call and leave it without trigger, whatever the faults |
| ListenerProperties.LostJobNotRepairedByInitialization | application-antivirus-api/src/main/java/com/xwiki/antivirus/internal/AntivirusJobSchedulerListener.java:145-149 | after an unschedule that works and a schedule that fails, the job has no trigger and the failure is reported; no later series of initializations brings the trigger back or makes any call |

## Left out

- The thread context class loader replaced at the start of `initialize()`: a host-platform workaround acting on thread-local global state.
- Resolving the scheduler plugin, the job document and its job object: folded into the one lookup that may fail (`Faults.lookup`), which also covers the job status read.
- A missing request context on the install path: the source would fail with a null pointer exception at the first use of the context; the model treats that as a failed lookup and does not have a separate input for it.
- Dependency injection, the context provider and the cast of the event source to an installed extension: the context availability and the extension id are plain inputs.
- The distinct Java exception types: one `Failed` outcome.
- The real Quartz scheduler: its trigger states are reduced to `Normal | None | Other`, and its behaviour is the recording double described above. Whether a failed call leaves the trigger untouched is an assumption of that double.
- Concurrency: every reconciliation runs to completion before the next starts.
- `AntivirusConfiguration`: an interface of four getters with no logic that the listener does not use.
