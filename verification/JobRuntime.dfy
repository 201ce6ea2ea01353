/** Runs of the sequential job runtime (adapters/jobsfake/runtime.go) and all callers that
    cancel, read or close meanwhile, as an interleaving of locked sections.  A run reads
    the cancel flag and the context in separate steps, and calls the host outside the
    lock; between any two of its steps anything else may happen. */
module JobRuntime {
  import opened Collections
  import opened Json
  import opened JobStore

  const STARTED := "job.started"
  const FINISHED := "job.finished"

  datatype UnitResult = UnitResult(unitId: string, status: string, errorCode: string)

  function Summarize(r: UnitResult): Summary {
    Summary(r.unitId, r.status, if r.errorCode == "" then None else Some(r.errorCode))
  }

  /** Where a run stands.  Flag reads and context reads come once before every unit and
      once after the loop. */
  datatype Pc = Launching | CheckFlag | CheckCtx | Calling | DecideFlag | DecideCtx | Finishing | Settling | Returned | Failed

  /** The local variables of one run.  `next` indexes the unit the loop stands at, `called`
      and `results` are the units the host was called on and what it answered, `announced`
      is the status in the finished event; the closing block may still change `status`. */
  datatype Proc = Proc(
    units: seq<string>, next: nat, pc: Pc, called: seq<string>, results: seq<UnitResult>,
    summaries: seq<Summary>, anyOk: bool, anyErr: bool, status: string, announced: string, finishedSeq: int)

  /** `done` holds the jobs whose context is cancelled; `host` is false when no unit
      runner is wired. */
  datatype Sys = Sys(store: Store, procs: map<Id, Proc>, done: set<Id>, host: bool)

  datatype Step =
    | Start(id: Id, units: seq<string>)
    | Launch(id: Id, goal: string, ts: int)
    | ReadFlag(id: Id)
    | ReadCtx(id: Id)
    | UnitReturns(id: Id, result: UnitResult)
    | UnitFails(id: Id)
    | EmitFinished(id: Id, ts: int)
    | SettleRun(id: Id)
    | Cancel(id: Id)
    | CtxDone(id: Id)

  function LoopTop(p: Proc): Pc {
    if p.next < |p.units| then CheckFlag else DecideFlag
  }

  function Classify(anyOk: bool, anyErr: bool): string {
    if anyErr && anyOk then "partial" else if anyErr then "error" else "ok"
  }

  /** Minted ids are fresh. */
  predicate Enabled(s: Sys, step: Step) {
    match step
    case Start(id, _) => id !in s.procs && id !in s.store.snaps
    case Launch(id, _, _) => id in s.procs && s.procs[id].pc == Launching
    case ReadFlag(id) => id in s.procs && s.procs[id].pc in {CheckFlag, DecideFlag}
    case ReadCtx(id) => id in s.procs && s.procs[id].pc in {CheckCtx, DecideCtx}
    case UnitReturns(id, _) => id in s.procs && s.procs[id].pc == Calling && s.procs[id].next < |s.procs[id].units|
    case UnitFails(id) => id in s.procs && s.procs[id].pc == Calling
    case EmitFinished(id, _) => id in s.procs && s.procs[id].pc == Finishing
    case SettleRun(id) => id in s.procs && s.procs[id].pc == Settling
    case Cancel(_) => true
    case CtxDone(_) => true
  }

  function Goto(s: Sys, id: Id, p: Proc): Sys {
    s.(procs := s.procs[id := p])
  }

  function Apply(s: Sys, step: Step): Sys
    requires Enabled(s, step)
  {
    match step
    case Start(id, units) =>
      Goto(s.(store := Register(s.store, id)), id, Proc(units, 0, Launching, [], [], [], false, false, "", "", 0))
    case Launch(id, goal, ts) =>
      var p := s.procs[id];
      var t := s.(store := Append(s.store, NextEvent(s.store, id, STARTED, map["goal" := Str(goal)], ts)));
      if !s.host && |p.units| > 0 then Goto(t.(done := t.done + {id}), id, p.(pc := Failed))
      else Goto(t, id, p.(pc := LoopTop(p)))
    case ReadFlag(id) =>
      var p := s.procs[id];
      Goto(s, id,
        if p.pc == CheckFlag then p.(pc := if id in s.store.cancelled then DecideFlag else CheckCtx)
        else if id in s.store.cancelled then p.(pc := Finishing, status := "cancelled")
        else p.(pc := DecideCtx))
    case ReadCtx(id) =>
      var p := s.procs[id];
      Goto(s, id,
        if p.pc == CheckCtx then p.(pc := if id in s.done then DecideFlag else Calling)
        else p.(pc := Finishing, status := if id in s.done then "cancelled" else Classify(p.anyOk, p.anyErr)))
    case UnitReturns(id, r) =>
      var p := s.procs[id];
      var q := p.(next := p.next + 1, called := p.called + [p.units[p.next]],
                  results := p.results + [r], summaries := p.summaries + [Summarize(r)],
                  anyOk := p.anyOk || r.status == "ok", anyErr := p.anyErr || r.status != "ok");
      Goto(s, id, q.(pc := LoopTop(q)))
    case UnitFails(id) =>
      Goto(s.(done := s.done + {id}), id, s.procs[id].(pc := Failed))
    case EmitFinished(id, ts) =>
      var p := s.procs[id];
      var ev := NextEvent(s.store, id, FINISHED, map["status" := Str(p.status)], ts);
      Goto(s.(store := Append(s.store, ev)), id, p.(pc := Settling, announced := p.status, finishedSeq := ev.seqNo))
    case SettleRun(id) =>
      var p := s.procs[id];
      Goto(s.(store := Settle(s.store, id, p.status, p.finishedSeq, p.summaries)), id,
           p.(pc := Returned, status := FinalStatus(s.store, id, p.status)))
    case Cancel(id) => s.(store := MarkCancelled(s.store, id))
    case CtxDone(id) => s.(done := s.done + {id})
  }

  /** Every step is enabled when it is taken. */
  ghost predicate Legal(host: bool, steps: seq<Step>)
    decreases |steps|, 0
  {
    steps == [] ||
    (Legal(host, steps[..|steps| - 1]) && Enabled(After(host, steps[..|steps| - 1]), steps[|steps| - 1]))
  }

  ghost function After(host: bool, steps: seq<Step>): Sys
    requires Legal(host, steps)
    decreases |steps|, 1
  {
    if steps == [] then Sys(EMPTY, map[], {}, host)
    else Apply(After(host, steps[..|steps| - 1]), steps[|steps| - 1])
  }

  // ---- what one run keeps -----------------------------------------------------

  function SummariesOf(results: seq<UnitResult>): seq<Summary> {
    seq(|results|, i requires 0 <= i < |results| => Summarize(results[i]))
  }

  ghost predicate SomeOk(results: seq<UnitResult>) {
    exists i :: 0 <= i < |results| && results[i].status == "ok"
  }

  ghost predicate SomeErr(results: seq<UnitResult>) {
    exists i :: 0 <= i < |results| && results[i].status != "ok"
  }

  /** The status that the answers of the units deserve. */
  ghost function Verdict(results: seq<UnitResult>): string {
    if SomeErr(results) && SomeOk(results) then "partial" else if SomeErr(results) then "error" else "ok"
  }

  ghost predicate IsStarted(e: Event, id: Id) {
    && e.seqNo == 1 && e.typ == STARTED && e.jobId == id && e.wave == 0 && e.planEpoch == 0
    && e.payload.Keys == {"goal"} && e.payload["goal"].Str?
  }

  ghost predicate IsFinished(e: Event, id: Id, status: string) {
    && e.seqNo == 2 && e.typ == FINISHED && e.jobId == id && e.wave == 0 && e.planEpoch == 0
    && e.payload == map["status" := Str(status)]
  }

  ghost predicate LogShape(log: seq<Event>, id: Id, p: Proc) {
    match p.pc
    case Launching => log == []
    case Settling => |log| == 2 && IsStarted(log[0], id) && IsFinished(log[1], id, p.announced) && p.finishedSeq == 2
    case Returned => |log| == 2 && IsStarted(log[0], id) && IsFinished(log[1], id, p.announced) && p.finishedSeq == 2
    case _ => |log| == 1 && IsStarted(log[0], id)
  }

  /** A status other than "cancelled" is only decided when every unit answered. */
  ghost predicate Decided(p: Proc, status: string, stopped: bool) {
    && (status == "cancelled" ==> stopped)
    && (status != "cancelled" ==> |p.results| == |p.units| && status == Verdict(p.results))
  }

  ghost predicate ProcInv(p: Proc, flag: bool, ctx: bool) {
    && |p.results| == p.next <= |p.units| && p.called == p.units[..p.next]
    && p.summaries == SummariesOf(p.results)
    && (p.anyOk <==> SomeOk(p.results)) && (p.anyErr <==> SomeErr(p.results))
    && match p.pc
       case Launching => p.results == []
       case CheckFlag => p.next < |p.units|
       case CheckCtx => p.next < |p.units|
       case Calling => p.next < |p.units|
       case DecideFlag => p.next == |p.units| || flag || ctx
       case DecideCtx => p.next == |p.units| || ctx
       case Failed => p.next < |p.units|
       case Finishing => Decided(p, p.status, flag || ctx)
       case Settling => Decided(p, p.status, flag || ctx) && p.announced == p.status
       case Returned =>
         && Decided(p, p.announced, flag || ctx)
         && (p.status == p.announced || (p.status == "cancelled" && flag))
  }

  /** While a run is under way its snapshot says so; afterwards it shows the run's
      outcome; a cancellation shows in both.  Whether it is partial is settled with the
      run: a cancel before that clears it, a later one keeps it. */
  ghost predicate SnapInv(snap: Snapshot, id: Id, p: Proc, flag: bool) {
    && snap.jobId == id
    && (flag ==> snap.status == "cancelled")
    && (p.pc != Returned ==> snap == Snapshot(id, if flag then "cancelled" else "running", 0, false, [], ""))
    && (p.pc == Returned ==>
          snap == Snapshot(id, if flag then "cancelled" else p.status, 2, p.status == "partial", p.summaries, ""))
  }

  ghost predicate JobInv(s: Sys, id: Id) {
    && (id in s.procs <==> id in s.store.snaps) && (id in s.procs <==> id in s.store.events)
    && (id in s.procs <==> id in s.store.cancels) && (id in s.store.cancelled ==> id in s.procs)
    && (id in s.procs ==>
          && ProcInv(s.procs[id], id in s.store.cancelled, id in s.done)
          && LogShape(s.store.events[id], id, s.procs[id])
          && SnapInv(s.store.snaps[id], id, s.procs[id], id in s.store.cancelled))
  }

  lemma AnswerAdds(results: seq<UnitResult>, r: UnitResult)
    ensures SummariesOf(results + [r]) == SummariesOf(results) + [Summarize(r)]
    ensures SomeOk(results + [r]) <==> SomeOk(results) || r.status == "ok"
    ensures SomeErr(results + [r]) <==> SomeErr(results) || r.status != "ok"
  {
    var all := results + [r];
    assert all[|results|] == r;
    assert forall i :: 0 <= i < |results| ==> all[i] == results[i];
  }

  /** No step touches another job. */
  lemma OtherJobs(s: Sys, step: Step, id: Id)
    requires Enabled(s, step) && JobInv(s, id) && step.id != id
    ensures JobInv(Apply(s, step), id)
  {
    hide ProcInv, LogShape, SnapInv;
  }

  /** The steps of a run that only move its own variables. */
  lemma LocalSteps(s: Sys, step: Step)
    requires Enabled(s, step) && JobInv(s, step.id)
    requires step.ReadFlag? || step.ReadCtx? || step.UnitReturns? || step.UnitFails?
    ensures JobInv(Apply(s, step), step.id)
  {
    hide SomeOk, SomeErr, SummariesOf, IsStarted, IsFinished;
    if step.UnitReturns? {
      AnswerAdds(s.procs[step.id].results, step.result);
    }
    LocalLength(s.procs[step.id].results);
  }

  lemma LocalLength(results: seq<UnitResult>)
    ensures |SummariesOf(results)| == |results|
  {
  }

  /** The steps that write the log or the snapshot. */
  lemma StoreSteps(s: Sys, step: Step)
    requires Enabled(s, step) && JobInv(s, step.id)
    requires step.EmitFinished? || step.SettleRun?
    ensures JobInv(Apply(s, step), step.id)
  {
    hide SomeOk, SomeErr, Verdict, SummariesOf;
    LocalLength(s.procs[step.id].results);
  }

  lemma LaunchStep(s: Sys, step: Step)
    requires Enabled(s, step) && JobInv(s, step.id) && step.Launch?
    ensures JobInv(Apply(s, step), step.id)
  {
    hide SomeOk, SomeErr, Verdict, SummariesOf, IsFinished;
    LocalLength(s.procs[step.id].results);
  }

  lemma StartStep(s: Sys, step: Step)
    requires Enabled(s, step) && JobInv(s, step.id) && step.Start?
    ensures JobInv(Apply(s, step), step.id)
  {
    hide SomeOk, SomeErr, Verdict, SummariesOf;
    NoAnswers();
    LocalLength([]);
  }

  lemma OutsideSteps(s: Sys, step: Step)
    requires Enabled(s, step) && JobInv(s, step.id)
    requires step.Cancel? || step.CtxDone?
    ensures JobInv(Apply(s, step), step.id)
  {
    hide SomeOk, SomeErr, Verdict, SummariesOf, LogShape;
  }

  /** Every step keeps the invariant of every job. */
  lemma StepKeeps(s: Sys, step: Step, id: Id)
    requires Enabled(s, step) && JobInv(s, id) && JobInv(s, step.id)
    ensures JobInv(Apply(s, step), id)
  {
    hide JobInv, Enabled, Apply;
    if step.id != id {
      OtherJobs(s, step, id);
    } else if step.ReadFlag? || step.ReadCtx? || step.UnitReturns? || step.UnitFails? {
      LocalSteps(s, step);
    } else if step.Cancel? || step.CtxDone? {
      OutsideSteps(s, step);
    } else if step.Start? {
      StartStep(s, step);
    } else if step.Launch? {
      LaunchStep(s, step);
    } else {
      StoreSteps(s, step);
    }
  }

  lemma NoAnswers()
    ensures !SomeOk([]) && !SomeErr([])
  {
  }

  /** The invariant of every job holds after every run, whatever the interleaving. */
  lemma {:induction false} Invariant(host: bool, steps: seq<Step>, id: Id)
    requires Legal(host, steps)
    ensures JobInv(After(host, steps), id)
    decreases |steps|
  {
    hide ProcInv, LogShape, SnapInv, Apply, Enabled;
    if steps != [] {
      var front := steps[..|steps| - 1];
      Invariant(host, front, id);
      Invariant(host, front, steps[|front|].id);
      StepKeeps(After(host, front), steps[|front|], id);
    }
  }
}
