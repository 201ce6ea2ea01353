/** The job runtime around an outside engine (adapters/jobsma/runtime.go): the engine
    records events at will and ends each job once; callers cancel at any time. */
module EngineJobs {
  import opened Collections
  import opened JobStore

  datatype Pc = Working | Ending(flag: bool) | Ended

  datatype Sys = Sys(store: Store, jobs: map<Id, Pc>)

  datatype Step =
    | Start(id: Id)
    | Record(id: Id, ev: Event)
    | ReadFlag(id: Id)
    | Finish(id: Id, outcome: Outcome)
    | Cancel(id: Id)

  predicate Enabled(s: Sys, step: Step) {
    match step
    case Start(id) => id !in s.jobs && id !in s.store.snaps
    case Record(id, ev) => ev.jobId == id
    case ReadFlag(id) => id in s.jobs && s.jobs[id].Working?
    case Finish(id, _) => id in s.jobs && s.jobs[id].Ending?
    case Cancel(_) => true
  }

  function Apply(s: Sys, step: Step): Sys
    requires Enabled(s, step)
  {
    match step
    case Start(id) => Sys(Register(s.store, id), s.jobs[id := Working])
    case Record(_, ev) => s.(store := Append(s.store, ev))
    case ReadFlag(id) => s.(jobs := s.jobs[id := Ending(id in s.store.cancelled)])
    case Finish(id, res) =>
      var snap := Finished(s.store, id, s.jobs[id].flag, res);
      Sys(s.store.(snaps := s.store.snaps[id := snap]), s.jobs[id := Ended])
    case Cancel(id) => s.(store := MarkCancelled(s.store, id))
  }

  ghost predicate JobInv(s: Sys, id: Id) {
    && (id in s.jobs <==> id in s.store.snaps) && (id in s.jobs <==> id in s.store.cancels)
    && (id in s.store.cancelled ==> id in s.jobs)
    && (id in s.jobs ==>
          && (id in s.store.cancelled ==> s.store.snaps[id].status == "cancelled")
          && (s.jobs[id].Ending? && s.jobs[id].flag ==> id in s.store.cancelled)
          && (!s.jobs[id].Ended? ==>
                s.store.snaps[id] == Snapshot(id, if id in s.store.cancelled then "cancelled" else "running", 0, false, [], "")))
  }

  ghost predicate Legal(steps: seq<Step>)
    decreases |steps|, 0
  {
    steps == [] || (Legal(steps[..|steps| - 1]) && Enabled(After(steps[..|steps| - 1]), steps[|steps| - 1]))
  }

  ghost function After(steps: seq<Step>): Sys
    requires Legal(steps)
    decreases |steps|, 1
  {
    if steps == [] then Sys(EMPTY, map[]) else Apply(After(steps[..|steps| - 1]), steps[|steps| - 1])
  }

  lemma StepKeeps(s: Sys, step: Step, id: Id)
    requires Enabled(s, step) && JobInv(s, id) && JobInv(s, step.id)
    ensures JobInv(Apply(s, step), id)
    ensures id in s.store.cancelled ==> id in Apply(s, step).store.cancelled
    ensures Log(s.store, id) <= Log(Apply(s, step).store, id) || step.Start?
  {
  }

  lemma {:induction false} Invariant(steps: seq<Step>, id: Id)
    requires Legal(steps)
    ensures JobInv(After(steps), id)
    decreases |steps|
  {
    hide Apply, Enabled;
    if steps != [] {
      var front := steps[..|steps| - 1];
      Invariant(front, id);
      Invariant(front, steps[|front|].id);
      StepKeeps(After(front), steps[|front|], id);
    }
  }

  lemma {:induction false} FlagStays(steps: seq<Step>, k: nat, id: Id)
    requires Legal(steps) && k <= |steps| && Legal(steps[..k])
    requires id in After(steps[..k]).store.cancelled
    ensures id in After(steps).store.cancelled
    decreases |steps|
  {
    hide JobInv, Apply, Enabled;
    if k < |steps| {
      var front := steps[..|steps| - 1];
      assert front[..k] == steps[..k];
      FlagStays(front, k, id);
      Invariant(front, id);
      Invariant(front, steps[|front|].id);
      StepKeeps(After(front), steps[|front|], id);
    } else {
      assert steps[..k] == steps;
    }
  }

  /** Cancellation is sticky here as well: once the flag is up, every later snapshot
      says "cancelled". */
  lemma {:induction false} CancelIsSticky(steps: seq<Step>, k: nat, id: Id)
    requires Legal(steps) && k <= |steps| && Legal(steps[..k])
    requires id in After(steps[..k]).store.cancelled
    ensures id in After(steps).store.snaps && After(steps).store.snaps[id].status == "cancelled"
  {
    FlagStays(steps, k, id);
    Invariant(steps, id);
  }

  /** In every reachable state the first read of the flag is redundant: the snapshot that
      finish writes is decided by the flag under the lock alone, and a cancelled job is
      never partial. */
  lemma {:induction false} LockedReadDecides(steps: seq<Step>, id: Id, res: Outcome)
    requires Legal(steps) && Enabled(After(steps), Finish(id, res))
    ensures var s := After(steps);
            var snap := Finished(s.store, id, s.jobs[id].flag, res);
            && snap == Finished(s.store, id, id in s.store.cancelled, res)
            && (snap.status == "cancelled" <==> id in s.store.cancelled)
            && (snap.status == "cancelled" ==> !snap.partial)
            && (snap.status == "ok" ==> res.ok && !res.partial)
  {
    Invariant(steps, id);
  }
}
