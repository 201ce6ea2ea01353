/** What callers of the job runtime observe over whole runs: numbered logs, sticky cancels,
    outcomes, and what the finished event announces (adapters/jobsfake/runtime.go). */
module JobLaws {
  import opened Collections
  import opened Json
  import opened JobStore
  import opened JobRuntime

  ghost function Observed(host: bool, steps: seq<Step>, id: Id): Option<Snapshot>
    requires Legal(host, steps)
  {
    var s := After(host, steps).store;
    if id in s.snaps then Some(s.snaps[id]) else None
  }

  /** The numbers of every log are exactly 1, 2, ... in order. */
  lemma {:induction false} LogsNumbered(host: bool, steps: seq<Step>, id: Id, i: nat)
    requires Legal(host, steps) && i < |Log(After(host, steps).store, id)|
    ensures Log(After(host, steps).store, id)[i].seqNo == i + 1
    ensures Log(After(host, steps).store, id)[i].jobId == id
    ensures |Log(After(host, steps).store, id)| <= 2
  {
    Invariant(host, steps, id);
  }

  lemma LegalPrefix(host: bool, steps: seq<Step>, k: nat)
    requires Legal(host, steps) && k <= |steps|
    ensures Legal(host, steps[..k])
    decreases |steps|
  {
    if k < |steps| {
      LegalPrefix(host, steps[..|steps| - 1], k);
      assert steps[..|steps| - 1][..k] == steps[..k];
    } else {
      assert steps[..k] == steps;
    }
  }

  /** One step may extend a log, and never rewrites it; it never lowers a flag. */
  lemma StepGrows(s: Sys, step: Step, id: Id)
    requires Enabled(s, step) && JobInv(s, id)
    ensures Log(s.store, id) <= Log(Apply(s, step).store, id)
    ensures id in s.store.cancelled ==> id in Apply(s, step).store.cancelled
  {
    hide ProcInv, LogShape, SnapInv;
  }

  lemma FailureStays(s: Sys, step: Step, id: Id)
    requires Enabled(s, step) && HasFailed(s, id)
    ensures HasFailed(Apply(s, step), id)
  {
  }

  predicate HasFailed(s: Sys, id: Id) { id in s.procs && s.procs[id].pc == Failed }

  /** Logs are append-only, cancellation is sticky, and a failure is final: later states only
      extend the logs and keep the flags and the failed runs of earlier ones. */
  lemma {:induction false} LogsGrow(host: bool, steps: seq<Step>, k: nat, id: Id)
    requires Legal(host, steps) && k <= |steps| && Legal(host, steps[..k])
    ensures Log(After(host, steps[..k]).store, id) <= Log(After(host, steps).store, id)
    ensures id in After(host, steps[..k]).store.cancelled ==> id in After(host, steps).store.cancelled
    ensures HasFailed(After(host, steps[..k]), id) ==> HasFailed(After(host, steps), id)
    decreases |steps|
  {
    hide JobInv, Apply, Enabled, HasFailed;
    if k < |steps| {
      var front := steps[..|steps| - 1];
      assert front[..k] == steps[..k];
      LogsGrow(host, front, k, id);
      Invariant(host, front, id);
      StepGrows(After(host, front), steps[|front|], id);
      if HasFailed(After(host, front), id) { FailureStays(After(host, front), steps[|front|], id); }
    } else {
      assert steps[..k] == steps;
    }
  }

  /** After a Cancel of a registered job every later Get reports "cancelled", even if the
      run that owned the job was about to settle. */
  lemma {:induction false} CancelIsSticky(host: bool, steps: seq<Step>, k: nat, id: Id)
    requires Legal(host, steps) && k < |steps| && steps[k] == Cancel(id)
    requires Legal(host, steps[..k]) && Observed(host, steps[..k], id).Some?
    ensures Observed(host, steps, id).Some? && Observed(host, steps, id).value.status == "cancelled"
  {
    LegalPrefix(host, steps, k + 1);
    assert steps[..k + 1][..k] == steps[..k];
    Invariant(host, steps[..k], id);
    var s := After(host, steps[..k]);
    assert After(host, steps[..k + 1]) == Apply(s, steps[k]);
    CancelRaises(s, id);
    LogsGrow(host, steps, k + 1, id);
    Invariant(host, steps, id);
  }

  lemma CancelRaises(s: Sys, id: Id)
    requires JobInv(s, id) && id in s.store.snaps
    ensures id in Apply(s, Cancel(id)).store.cancelled
  {
  }

  /** What the host answered to a run, in order. */
  ghost function Answers(steps: seq<Step>, id: Id): seq<UnitResult>
    decreases |steps|
  {
    if steps == [] then []
    else
      var last := steps[|steps| - 1];
      Answers(steps[..|steps| - 1], id) + if last.UnitReturns? && last.id == id then [last.result] else []
  }

  /** The units that a run was started on. */
  ghost function UnitsOf(steps: seq<Step>, id: Id): seq<string>
    decreases |steps|
  {
    if steps == [] then []
    else
      var last := steps[|steps| - 1];
      if last.Start? && last.id == id then last.units else UnitsOf(steps[..|steps| - 1], id)
  }

  /** A run keeps the units it was started on, and the answers it got. */
  lemma {:induction false} RunRemembers(host: bool, steps: seq<Step>, id: Id)
    requires Legal(host, steps)
    ensures id in After(host, steps).procs ==>
      After(host, steps).procs[id].units == UnitsOf(steps, id) && After(host, steps).procs[id].results == Answers(steps, id)
    ensures id !in After(host, steps).procs ==> Answers(steps, id) == []
    decreases |steps|
  {
    hide Apply, Enabled;
    if steps != [] {
      var front := steps[..|steps| - 1];
      RunRemembers(host, front, id);
      StepRemembers(After(host, front), steps[|front|], id);
    }
  }

  lemma StepRemembers(s: Sys, step: Step, id: Id)
    requires Enabled(s, step)
    ensures id in Apply(s, step).procs <==> id in s.procs || (step.Start? && step.id == id)
    ensures id in s.procs ==>
      && !(step.Start? && step.id == id)
      && Apply(s, step).procs[id].units == s.procs[id].units
      && Apply(s, step).procs[id].results == s.procs[id].results + if step.UnitReturns? && step.id == id then [step.result] else []
    ensures id !in s.procs ==> !(step.UnitReturns? && step.id == id)
    ensures step.Start? && step.id == id ==>
      Apply(s, step).procs[id].units == step.units && Apply(s, step).procs[id].results == []
  {
  }

  /** The classification of the statuses that unit summaries show. */
  ghost predicate Classified(summaries: seq<Summary>, status: string) {
    var ok := exists i :: 0 <= i < |summaries| && summaries[i].status == "ok";
    var bad := exists i :: 0 <= i < |summaries| && summaries[i].status != "ok";
    status == if bad && ok then "partial" else if bad then "error" else "ok"
  }

  /** What a run that returned leaves behind: its log is one started and one finished
      event; its summaries are, field by field, the answers of the host to the first of its
      units, in order; and a status other than "cancelled" means that every unit answered,
      and classifies the statuses that the summaries show. */
  lemma {:induction false} ReturnedRun(host: bool, steps: seq<Step>, id: Id)
    requires Legal(host, steps)
    requires id in After(host, steps).procs && After(host, steps).procs[id].pc == Returned
    ensures Observed(host, steps, id).Some?
    ensures var answers, snap := Answers(steps, id), Observed(host, steps, id).value;
      && |snap.summaries| == |answers| <= |UnitsOf(steps, id)|
      && (forall i :: 0 <= i < |answers| ==>
            && snap.summaries[i].unitId == answers[i].unitId && snap.summaries[i].status == answers[i].status
            && (snap.summaries[i].errorCode == None <==> answers[i].errorCode == "")
            && (answers[i].errorCode != "" ==> snap.summaries[i].errorCode == Some(answers[i].errorCode)))
      && (snap.status != "cancelled" ==> |answers| == |UnitsOf(steps, id)| && Classified(snap.summaries, snap.status))
      && (snap.partial ==> |answers| == |UnitsOf(steps, id)| && Classified(snap.summaries, "partial"))
      && snap.jobId == id && snap.seqNo == 2
    ensures var log, snap := Log(After(host, steps).store, id), Observed(host, steps, id).value;
      && |log| == 2 && log[0].typ == "job.started" && log[0].payload.Keys == {"goal"}
      && log[1].typ == "job.finished" && log[1].payload.Keys == {"status"} && log[1].payload["status"].Str?
      && (snap.status != "cancelled" ==> log[1].payload == map["status" := Str(snap.status)])
      && (log[1].payload["status"].s != "cancelled" ==>
            |snap.summaries| == |UnitsOf(steps, id)| && Classified(snap.summaries, log[1].payload["status"].s))
    ensures Observed(host, steps, id).value.status == "cancelled" ==>
      id in After(host, steps).store.cancelled || id in After(host, steps).done
  {
    Invariant(host, steps, id);
    RunRemembers(host, steps, id);
    hide Legal, After;
    VerdictShows(Answers(steps, id));
  }

  lemma VerdictShows(results: seq<UnitResult>)
    ensures Classified(SummariesOf(results), Verdict(results))
  {
    var all := SummariesOf(results);
    assert forall i :: 0 <= i < |results| ==> all[i].status == results[i].status;
  }

  /** Without a unit runner a run with units fails at once, and one without units does not. */
  lemma {:induction false} NoHostFails(steps: seq<Step>, id: Id)
    requires Legal(false, steps) && id in After(false, steps).procs && UnitsOf(steps, id) != []
    ensures After(false, steps).procs[id].pc == Launching || HasFailed(After(false, steps), id)
    ensures Answers(steps, id) == []
  {
    NoHost(steps, id);
    RunRemembers(false, steps, id);
  }

  lemma {:induction false} NoHost(steps: seq<Step>, id: Id)
    requires Legal(false, steps)
    ensures var s := After(false, steps);
      && !s.host
      && (id in s.procs && s.procs[id].units != [] ==>
            s.procs[id].pc in {Launching, Failed} && s.procs[id].results == [])
    decreases |steps|
  {
    if steps != [] {
      NoHost(steps[..|steps| - 1], id);
      var s, step := After(false, steps[..|steps| - 1]), steps[|steps| - 1];
      if id in s.procs && (step.Cancel? || step.CtxDone? || step.id != id) { Elsewhere(s, step, id); }
    }
  }

  // ---- what stops a run -------------------------------------------------------------------------

  /** A run that was told to stop, by a cancel or through its context. */
  ghost predicate Told(s: Sys, id: Id) { id in s.store.cancelled || id in s.done }

  /** How many units a run that was told to stop may still call: the one it is calling, or
      (when only the flag says so) one that it is just about to call. */
  ghost function StillCalls(s: Sys, id: Id): nat {
    if id !in s.procs then 0
    else if s.procs[id].pc == Calling then 1
    else if id in s.done || s.procs[id].pc == DecideFlag || s.procs[id].pc == DecideCtx then 0
    else if s.procs[id].pc == CheckCtx then 1
    else 0
  }

  lemma StopStep(s: Sys, step: Step, id: Id)
    requires Enabled(s, step) && Told(s, id) && id in s.procs
    ensures Told(Apply(s, step), id) && id in Apply(s, step).procs
    ensures StillCalls(Apply(s, step), id) + (if step.UnitReturns? && step.id == id then 1 else 0) <= StillCalls(s, id)
  {
    hide FinalStatus, Summarize, Classify;
    if step.Cancel? || step.CtxDone? || step.id != id { Elsewhere(s, step, id); }
  }

  /** Once told to stop, a run calls at most one more unit: the one it is calling, or the one
      between whose flag and context reading the cancel came. */
  lemma {:induction false} StopsCalling(host: bool, steps: seq<Step>, k: nat, id: Id)
    requires Legal(host, steps) && k <= |steps| && Legal(host, steps[..k])
    requires id in After(host, steps[..k]).procs && Told(After(host, steps[..k]), id)
    ensures |Answers(steps, id)| <= |Answers(steps[..k], id)| + StillCalls(After(host, steps[..k]), id) <= |Answers(steps[..k], id)| + 1
  {
    CallsLeft(host, steps, k, id);
  }

  lemma {:induction false} CallsLeft(host: bool, steps: seq<Step>, k: nat, id: Id)
    requires Legal(host, steps) && k <= |steps| && Legal(host, steps[..k])
    requires id in After(host, steps[..k]).procs && Told(After(host, steps[..k]), id)
    ensures id in After(host, steps).procs && Told(After(host, steps), id)
    ensures |Answers(steps, id)| + StillCalls(After(host, steps), id)
         <= |Answers(steps[..k], id)| + StillCalls(After(host, steps[..k]), id)
    decreases |steps|
  {
    hide Apply, Enabled, Told, StillCalls;
    if k < |steps| {
      var front := steps[..|steps| - 1];
      assert front[..k] == steps[..k];
      CallsLeft(host, front, k, id);
      StopStep(After(host, front), steps[|front|], id);
    } else {
      assert steps[..k] == steps;
    }
  }

  /** A run whose next reading tells it to stop, or that has decided so. */
  ghost predicate Stopping(s: Sys, id: Id) {
    && id in s.procs
    && var p := s.procs[id];
       || (id in s.store.cancelled && p.pc in {Launching, CheckFlag, CheckCtx, Calling, DecideFlag})
       || (id in s.done && p.pc in {Launching, CheckFlag, CheckCtx, Calling, DecideFlag, DecideCtx})
       || (p.pc == Finishing && p.status == "cancelled")
       || (p.pc in {Settling, Returned} && p.announced == "cancelled")
       || p.pc == Failed
  }

  lemma StoppingStays(s: Sys, step: Step, id: Id)
    requires Enabled(s, step) && Stopping(s, id)
    ensures Stopping(Apply(s, step), id)
  {
    hide FinalStatus, Summarize, Classify;
    if step.Cancel? || step.CtxDone? || step.id != id { Elsewhere(s, step, id); }
  }

  lemma Elsewhere(s: Sys, step: Step, id: Id)
    requires Enabled(s, step) && id in s.procs && (step.Cancel? || step.CtxDone? || step.id != id)
    ensures id in Apply(s, step).procs && Apply(s, step).procs[id] == s.procs[id]
    ensures id in s.store.cancelled ==> id in Apply(s, step).store.cancelled
    ensures id in s.done ==> id in Apply(s, step).done
  {
  }

  /** A run that is told to stop while it still has a reading of the flag (or, for its
      context, of the context) ahead announces "cancelled", whatever its units answered. */
  lemma {:induction false} StopIsAnnounced(host: bool, steps: seq<Step>, k: nat, id: Id)
    requires Legal(host, steps) && k <= |steps| && Legal(host, steps[..k]) && Stopping(After(host, steps[..k]), id)
    ensures Stopping(After(host, steps), id)
    ensures After(host, steps).procs[id].pc == Returned ==> Announced(After(host, steps), id, "cancelled")
    decreases |steps|
  {
    hide JobInv, Apply, Enabled;
    if k < |steps| {
      var front := steps[..|steps| - 1];
      assert front[..k] == steps[..k];
      StopIsAnnounced(host, front, k, id);
      StoppingStays(After(host, front), steps[|front|], id);
    } else {
      assert steps[..k] == steps;
    }
    AnnouncedIsLogged(host, steps, id);
  }

  lemma AnnouncedIsLogged(host: bool, steps: seq<Step>, id: Id)
    requires Legal(host, steps)
    ensures var s := After(host, steps);
      id in s.procs && s.procs[id].pc == Returned ==> Announced(s, id, s.procs[id].announced)
  {
    Invariant(host, steps, id);
  }
  /** A run that returned does not change any more. */
  lemma {:induction false} ReturnedStays(host: bool, steps: seq<Step>, k: nat, id: Id)
    requires Legal(host, steps) && k <= |steps| && Legal(host, steps[..k])
    requires id in After(host, steps[..k]).procs && After(host, steps[..k]).procs[id].pc == Returned
    ensures id in After(host, steps).procs && After(host, steps).procs[id] == After(host, steps[..k]).procs[id]
    decreases |steps|
  {
    hide Apply, Enabled;
    if k < |steps| {
      var front := steps[..|steps| - 1];
      assert front[..k] == steps[..k];
      ReturnedStays(host, front, k, id);
      StepLeavesReturned(After(host, front), steps[|front|], id);
    } else {
      assert steps[..k] == steps;
    }
  }

  lemma StepLeavesReturned(s: Sys, step: Step, id: Id)
    requires Enabled(s, step) && id in s.procs && s.procs[id].pc == Returned
    ensures id in Apply(s, step).procs && Apply(s, step).procs[id] == s.procs[id]
  {
  }

  /** Every Get after the closing block says partial exactly when the run announced
      "partial" and nobody had cancelled the job by then; a later cancel changes the status
      and not this. */
  lemma {:induction false} PartialExactly(host: bool, steps: seq<Step>, k: nat, id: Id)
    requires Legal(host, steps) && k < |steps| && steps[k] == SettleRun(id) && Legal(host, steps[..k])
    ensures Observed(host, steps, id).Some? && id in After(host, steps[..k]).procs
    ensures Observed(host, steps, id).value.partial <==>
      After(host, steps[..k]).procs[id].announced == "partial" && id !in After(host, steps[..k]).store.cancelled
  {
    LegalPrefix(host, steps, k + 1);
    assert steps[..k + 1][..k] == steps[..k];
    Invariant(host, steps[..k], id);
    assert After(host, steps[..k + 1]) == Apply(After(host, steps[..k]), steps[k]);
    SettledStatus(After(host, steps[..k]), id);
    ReturnedStays(host, steps, k + 1, id);
    Invariant(host, steps, id);
  }

  lemma SettledStatus(s: Sys, id: Id)
    requires JobInv(s, id) && Enabled(s, SettleRun(id))
    ensures var t := Apply(s, SettleRun(id));
      && id in t.procs && t.procs[id].pc == Returned
      && t.procs[id].status == (if id in s.store.cancelled then "cancelled" else s.procs[id].announced)
  {
    hide SnapInv, LogShape;
  }

  /** A run whose host call failed, or that found no host, stays failed: every later Get
      says "running" (or "cancelled", once somebody cancelled it), with no summaries, and
      its log never gets a finished event. */
  lemma {:induction false} FailedRun(host: bool, steps: seq<Step>, k: nat, id: Id)
    requires Legal(host, steps) && k <= |steps| && Legal(host, steps[..k]) && HasFailed(After(host, steps[..k]), id)
    ensures HasFailed(After(host, steps), id) && Observed(host, steps, id).Some?
    ensures Observed(host, steps, id).value ==
      Snapshot(id, if id in After(host, steps).store.cancelled then "cancelled" else "running", 0, false, [], "")
    ensures |Log(After(host, steps).store, id)| == 1
  {
    LogsGrow(host, steps, k, id);
    Invariant(host, steps, id);
  }

  /** The status that the finished event announced. */
  ghost predicate Announced(s: Sys, id: Id, status: string) {
    |Log(s.store, id)| == 2 && Log(s.store, id)[1].payload == map["status" := Str(status)]
  }

  /** What a returned run announced is what every Get then says, exactly when it announced
      "cancelled" itself or nobody ever cancelled the job. */
  lemma {:induction false} AnnouncedStatusStays(host: bool, steps: seq<Step>, id: Id)
    requires Legal(host, steps)
    requires id in After(host, steps).procs && After(host, steps).procs[id].pc == Returned
    ensures Observed(host, steps, id).Some?
    ensures var s := After(host, steps);
      && Announced(s, id, s.procs[id].announced)
      && (Announced(s, id, Observed(host, steps, id).value.status) <==>
            s.procs[id].announced == "cancelled" || id !in s.store.cancelled)
  {
    Invariant(host, steps, id);
    hide Verdict, SummariesOf;
    var s := After(host, steps);
    SameStatus(s.procs[id].announced, s.store.snaps[id].status);
  }

  lemma SameStatus(a: string, b: string)
    ensures map["status" := Str(a)] == map["status" := Str(b)] <==> a == b
  {
    assert map["status" := Str(a)]["status"] == Str(a) && map["status" := Str(b)]["status"] == Str(b);
  }

  /** A run without units that stands at pc; nothing has stopped it. */
  ghost predicate EmptyRunAt(s: Sys, id: Id, pc: Pc) {
    && id in s.procs && s.procs[id].pc == pc && s.procs[id].units == [] && s.procs[id].next == 0
    && !s.procs[id].anyErr && id !in s.done && id !in s.store.cancelled && id in s.store.cancels
    && id in s.store.snaps && (pc.Finishing? || pc.Settling? ==> s.procs[id].status == "ok")
    && (pc.Settling? ==> Announced(s, id, "ok"))
    && (pc.Launching? ==> Log(s.store, id) == [])
    && (pc == DecideFlag || pc == DecideCtx || pc == Finishing ==> |Log(s.store, id)| == 1)
  }

  lemma EmptyRunStarts(s: Sys, id: Id)
    requires JobInv(s, id) && id !in s.procs && id !in s.done
    ensures Enabled(s, Start(id, [])) && EmptyRunAt(Apply(s, Start(id, [])), id, Launching)
  {
    hide ProcInv, LogShape, SnapInv;
  }

  lemma EmptyRunSteps(s: Sys, id: Id)
    ensures EmptyRunAt(s, id, Launching) ==>
      Enabled(s, Launch(id, "", 0)) && EmptyRunAt(Apply(s, Launch(id, "", 0)), id, DecideFlag)
    ensures EmptyRunAt(s, id, DecideFlag) ==> Enabled(s, ReadFlag(id)) && EmptyRunAt(Apply(s, ReadFlag(id)), id, DecideCtx)
    ensures EmptyRunAt(s, id, DecideCtx) ==> Enabled(s, ReadCtx(id)) && EmptyRunAt(Apply(s, ReadCtx(id)), id, Finishing)
    ensures EmptyRunAt(s, id, Finishing) ==>
      Enabled(s, EmitFinished(id, 0)) && EmptyRunAt(Apply(s, EmitFinished(id, 0)), id, Settling)
  {
  }

  lemma EmptyRunTurned(s: Sys, id: Id)
    requires EmptyRunAt(s, id, Settling)
    ensures var t := Apply(s, Cancel(id));
      && Enabled(s, Cancel(id)) && Enabled(t, SettleRun(id))
      && var u := Apply(t, SettleRun(id));
         && id in u.procs && id in u.store.snaps
         && u.procs[id].pc == Returned && u.store.snaps[id].status == "cancelled" && Announced(u, id, "ok")
  {
  }

  lemma Extend(host: bool, steps: seq<Step>, step: Step) returns (longer: seq<Step>)
    requires Legal(host, steps) && Enabled(After(host, steps), step)
    ensures steps <= longer && Legal(host, longer) && After(host, longer) == Apply(After(host, steps), step)
  {
    longer := steps + [step];
    assert longer[..|longer| - 1] == steps;
  }

  /** Every run can go on to one that announces "ok" and then shows "cancelled": a job
      without units, cancelled between its last two locked sections. */
  lemma {:induction false} AnnouncedOkTurned(host: bool, steps: seq<Step>, id: Id) returns (longer: seq<Step>)
    requires Legal(host, steps) && id !in After(host, steps).procs && id !in After(host, steps).done
    ensures steps <= longer && Legal(host, longer)
    ensures id in After(host, longer).procs && After(host, longer).procs[id].pc == Returned
    ensures Announced(After(host, longer), id, "ok")
    ensures id in After(host, longer).store.snaps && After(host, longer).store.snaps[id].status == "cancelled"
  {
    hide JobInv, Apply, Enabled, EmptyRunAt, After, Legal, Announced;
    Invariant(host, steps, id);
    EmptyRunStarts(After(host, steps), id);
    var t := Extend(host, steps, Start(id, []));
    EmptyRunSteps(After(host, t), id);
    t := Extend(host, t, Launch(id, "", 0));
    EmptyRunSteps(After(host, t), id);
    t := Extend(host, t, ReadFlag(id));
    EmptyRunSteps(After(host, t), id);
    t := Extend(host, t, ReadCtx(id));
    EmptyRunSteps(After(host, t), id);
    t := Extend(host, t, EmitFinished(id, 0));
    EmptyRunTurned(After(host, t), id);
    t := Extend(host, t, Cancel(id));
    longer := Extend(host, t, SettleRun(id));
  }
}
