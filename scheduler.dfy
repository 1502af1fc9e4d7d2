/** The scheduler plugin as the listener sees it: a trigger state to read, and
    schedule and unschedule calls that may fail. The model is a recording test
    double: it logs every mutating call it receives, failed ones included. */
module Scheduling {
  import opened Reconciler

  /** Which scheduler operations fail. While one setting is in effect a
      failing operation fails every time it is called; "lookup" covers resolving the plugin, the job document, its
      job object and the job status. */
  datatype Faults = Faults(lookup: bool, unschedule: bool, schedule: bool)

  /** The abstract scheduler: the scan job's trigger state, the number of
      triggers registered for it, the fault settings and the calls received. */
  datatype Store = Store(state: TriggerState, triggers: nat, faults: Faults, log: seq<Call>)

  /** A job has a trigger state other than None exactly when some trigger is registered for it. */
  predicate Consistent(g: Store)
  {
    g.state == None <==> g.triggers == 0
  }

  predicate Fails(c: Call, f: Faults)
  {
    match c
    case UnscheduleJob => f.unschedule
    case ScheduleJob => f.schedule
  }

  datatype StateLookup = Resolved(state: TriggerState) | Unresolved

  /** Reading the job's trigger state, which fails when the lookup is faulty. */
  function Lookup(g: Store): StateLookup
  {
    if g.faults.lookup then Unresolved else Resolved(g.state)
  }

  datatype Performed = Performed(ok: bool, store: Store)

  /** One mutating call. A successful schedule registers one more trigger and
      makes the state Normal; a successful unschedule removes every trigger. */
  function Perform(c: Call, g: Store): (r: Performed)
    ensures r.ok <==> !Fails(c, g.faults)
    ensures r.store.log == g.log + [c] && r.store.faults == g.faults
    ensures !r.ok ==> r.store.state == g.state && r.store.triggers == g.triggers
    ensures r.ok ==> Consistent(r.store)
  {
    var logged := g.(log := g.log + [c]);
    if Fails(c, g.faults) then Performed(false, logged)
    else match c
      case ScheduleJob => Performed(true, logged.(state := Normal, triggers := g.triggers + 1))
      case UnscheduleJob => Performed(true, logged.(state := None, triggers := 0))
  }

  datatype Applied = Applied(ok: bool, store: Store)

  /** Issues the calls in order and stops at the first one that fails: the
      calls logged are a prefix of cs, all of cs exactly when none of them
      fails, and otherwise the last one logged is the failing one. */
  function Apply(cs: seq<Call>, g: Store): (a: Applied)
    ensures a.store.faults == g.faults
    ensures |g.log| <= |a.store.log| <= |g.log| + |cs|
    ensures a.store.log == g.log + cs[..|a.store.log| - |g.log|]
    ensures a.ok <==> forall i :: 0 <= i < |cs| ==> !Fails(cs[i], g.faults)
    ensures a.ok ==> |a.store.log| == |g.log| + |cs|
    ensures !a.ok ==> |a.store.log| > |g.log| && Fails(cs[|a.store.log| - |g.log| - 1], g.faults)
    ensures !a.ok ==> forall i :: 0 <= i < |a.store.log| - |g.log| - 1 ==> !Fails(cs[i], g.faults)
    ensures Consistent(g) ==> Consistent(a.store)
    decreases |cs|
  {
    if cs == [] then Applied(true, g)
    else
      var p := Perform(cs[0], g);
      if !p.ok then
        assert cs[..1] == [cs[0]];
        Applied(false, p.store)
      else
        var a := Apply(cs[1..], p.store);
        assert cs[..|a.store.log| - |g.log|] == [cs[0]] + cs[1..][..|a.store.log| - |p.store.log|];
        a
  }

  /** Unfolds Apply on a plan of one call. */
  lemma ApplyOne(c: Call, g: Store)
    ensures Apply([c], g) == Applied(Perform(c, g).ok, Perform(c, g).store)
  {
  }

  /** Unfolds Apply on a plan of two calls. */
  lemma ApplyTwo(c: Call, c': Call, g: Store)
    ensures var p := Perform(c, g);
      Apply([c, c'], g) == if p.ok then Apply([c'], p.store) else Applied(false, p.store)
  {
  }

  /** The scheduler plugin, with its state updated in place. */
  class Scheduler {
    var state: TriggerState
    var triggers: nat
    var log: seq<Call>
    const faults: Faults

    function Abstract(): Store
      reads this
    {
      Store(state, triggers, faults, log)
    }

    constructor (state: TriggerState, triggers: nat, faults: Faults)
      ensures Abstract() == Store(state, triggers, faults, [])
    {
      this.state := state;
      this.triggers := triggers;
      this.faults := faults;
      this.log := [];
    }

    /** The job status the listener reads before deciding. */
    method JobStatus() returns (r: StateLookup)
      ensures r.Resolved? <==> !faults.lookup
      ensures r.Resolved? ==> r.state == state
    {
      if faults.lookup {
        r := Unresolved;
      } else {
        r := Resolved(state);
      }
    }

    method Schedule() returns (ok: bool)
      modifies this
      ensures Performed(ok, Abstract()) == Perform(ScheduleJob, old(Abstract()))
    {
      log := log + [ScheduleJob];
      ok := !faults.schedule;
      if ok {
        state, triggers := Normal, triggers + 1;
      }
    }

    method Unschedule() returns (ok: bool)
      modifies this
      ensures Performed(ok, Abstract()) == Perform(UnscheduleJob, old(Abstract()))
    {
      log := log + [UnscheduleJob];
      ok := !faults.unschedule;
      if ok {
        state, triggers := None, 0;
      }
    }
  }
}
