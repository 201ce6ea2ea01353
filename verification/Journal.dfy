/** The append-only journal and the span tracer (domain/journal/journal.go,
    domain/journal/spans.go, domain/journal/export.go). */
module Journal {
  import opened Collections

  datatype Kind = SpanStarted | SpanEnded | Other

  /** One row; empty strings stand for absent ids and names. */
  datatype Ev = Ev(kind: Kind, turn: string, id: string, parent: string, name: string, status: string, ts: int)

  class InMemoryJournal {
    var evs: seq<Ev>

    constructor ()
      ensures evs == []
    {
      evs := [];
    }

    method Append(ev: Ev)
      modifies this
      ensures evs == old(evs) + [ev]
    {
      evs := evs + [ev];
    }
  }

  /** The stack without the first occurrence of an id. */
  function DropFirst(stack: seq<string>, id: string): seq<string> {
    if stack == [] then [] else if stack[0] == id then stack[1..] else [stack[0]] + DropFirst(stack[1..], id)
  }

  /** What End leaves of a stack: the top goes when it is the span, and otherwise the
      span's first occurrence. */
  function Popped(stack: seq<string>, id: string): seq<string> {
    if stack != [] && stack[|stack| - 1] == id then stack[..|stack| - 1] else DropFirst(stack, id)
  }

  lemma {:induction false} DropFirstAt(stack: seq<string>, id: string, i: nat)
    requires i <= |stack| && id !in stack[..i] && (i < |stack| ==> stack[i] == id)
    ensures DropFirst(stack, id) == if i < |stack| then stack[..i] + stack[i + 1..] else stack
  {
    if i > 0 {
      assert stack[0] == stack[..i][0];
      assert stack[1..][..i - 1] == stack[..i][1..];
      DropFirstAt(stack[1..], id, i - 1);
    }
  }

  /** On a stack without repeats the span is gone altogether, and nothing else. */
  lemma {:induction false} PoppedIsWithout(stack: seq<string>, id: string)
    requires NoDup(stack)
    ensures Popped(stack, id) == Without(stack, id)
  {
    if id in stack {
      var i :| 0 <= i < |stack| && stack[i] == id;
      WithoutAt(stack, i);
      assert i < |stack| - 1 ==> stack[|stack| - 1] != id;
      if i == |stack| - 1 {
        assert stack[..i] + stack[i + 1..] == stack[..i];
      } else {
        DropFirstAt(stack, id, i);
      }
    } else {
      WithoutAbsent(stack, id);
      assert stack[..|stack|] == stack;
      DropFirstAt(stack, id, |stack|);
    }
  }

  class SpanTracer {
    const journal: InMemoryJournal
    const turn: string
    var stack: seq<string>

    constructor (journal: InMemoryJournal, turn: string)
      ensures this.journal == journal && this.turn == turn && stack == []
    {
      this.journal, this.turn, stack := journal, turn, [];
    }

    /** Start links to the given parent, or else to the innermost open span. */
    method Start(name: string, parent: string, minted: string, now: int) returns (parentId: string)
      modifies this, journal
      ensures parentId == if parent == "" && |old(stack)| > 0 then old(stack)[|old(stack)| - 1] else parent
      ensures stack == old(stack) + [minted]
      ensures journal.evs == old(journal.evs) + [Ev(SpanStarted, turn, minted, parentId, name, "", now)]
    {
      parentId := parent;
      if parentId == "" && |stack| > 0 { parentId := stack[|stack| - 1]; }
      journal.Append(Ev(SpanStarted, turn, minted, parentId, name, "", now));
      stack := stack + [minted];
    }

    /** End takes the span off the stack wherever it stands; spans above it stay open. */
    method End(id: string, parent: string, turnOf: string, name: string, status: string, now: int)
      modifies this, journal
      ensures stack == Popped(old(stack), id)
      ensures journal.evs == old(journal.evs)
        + [Ev(SpanEnded, turnOf, id, parent, name, if status == "" then "ok" else status, now)]
    {
      var n := |stack|;
      if n > 0 && stack[n - 1] == id {
        stack := stack[..n - 1];
      } else {
        var i := 0;
        while i < n && stack[i] != id
          invariant 0 <= i <= n && n == |stack| && stack == old(stack) && id !in stack[..i] && journal.evs == old(journal.evs)
        {
          i := i + 1;
        }
        DropFirstAt(stack, id, i);
        if i < n { stack := stack[..i] + stack[i + 1..]; }
      }
      journal.Append(Ev(SpanEnded, turnOf, id, parent, name, if status == "" then "ok" else status, now));
    }
  }

  /** FilterByTurn; the empty turn keeps everything. */
  function FilterByTurn(evs: seq<Ev>, turn: string): seq<Ev>
    decreases |evs|
  {
    if turn == "" then evs
    else if evs == [] then []
    else
      var front := FilterByTurn(evs[..|evs| - 1], turn);
      if evs[|evs| - 1].turn == turn then front + [evs[|evs| - 1]] else front
  }

  // ---- runs of many tracers on one journal ---------------------------------------------------------

  datatype Sys = Sys(journal: seq<Ev>, stacks: map<string, seq<string>>)

  /** A tracer is named by its turn and a tag; a handle may be ended by any tracer, more
      than once. */
  datatype Step =
    | Start(tracer: string, turn: string, parent: string, minted: string, name: string, ts: int)
    | End(tracer: string, turn: string, id: string, parent: string, name: string, status: string, ts: int)
    | Append(ev: Ev)

  function StackOf(s: Sys, tracer: string): seq<string> {
    if tracer in s.stacks then s.stacks[tracer] else []
  }

  function ParentOf(s: Sys, tracer: string, parent: string): string {
    var stack := StackOf(s, tracer);
    if parent == "" && stack != [] then stack[|stack| - 1] else parent
  }

  ghost predicate Mentioned(evs: seq<Ev>, id: string) {
    exists i :: 0 <= i < |evs| && evs[i].kind.SpanStarted? && (evs[i].id == id || evs[i].parent == id)
  }

  /** A minted id is new: no span has it, and nobody named it as a parent before. */
  ghost predicate Enabled(s: Sys, step: Step) {
    match step
    case Start(tracer, _, parent, minted, _, _) =>
      minted != "" && !Mentioned(s.journal, minted) && minted != ParentOf(s, tracer, parent)
    case End(_, _, _, _, _, _, _) => true
    case Append(ev) => ev.kind.Other?
  }

  function Apply(s: Sys, step: Step): Sys {
    match step
    case Start(tracer, turn, parent, minted, name, ts) =>
      Sys(s.journal + [Ev(SpanStarted, turn, minted, ParentOf(s, tracer, parent), name, "", ts)],
          s.stacks[tracer := StackOf(s, tracer) + [minted]])
    case End(tracer, turn, id, parent, name, status, ts) =>
      Sys(s.journal + [Ev(SpanEnded, turn, id, parent, name, if status == "" then "ok" else status, ts)],
          s.stacks[tracer := Popped(StackOf(s, tracer), id)])
    case Append(ev) => s.(journal := s.journal + [ev])
  }

  /** A step of the run is what the tracer's method does: a start nests below the parent
      given or else the innermost open span of its own tracer, an end without a status is
      "ok", and no other tracer's stack moves. */
  lemma {:induction false} StepsAreTraced(s: Sys, step: Step)
    ensures step.Start? ==>
      var open := if step.tracer in s.stacks then s.stacks[step.tracer] else [];
      var parent := if step.parent != "" || open == [] then step.parent else open[|open| - 1];
      && Apply(s, step).journal == s.journal + [Ev(SpanStarted, step.turn, step.minted, parent, step.name, "", step.ts)]
      && Apply(s, step).stacks == s.stacks[step.tracer := open + [step.minted]]
    ensures step.End? ==>
      var open := if step.tracer in s.stacks then s.stacks[step.tracer] else [];
      var status := if step.status != "" then step.status else "ok";
      && Apply(s, step).journal == s.journal + [Ev(SpanEnded, step.turn, step.id, step.parent, step.name, status, step.ts)]
      && Apply(s, step).stacks == s.stacks[step.tracer := Popped(open, step.id)]
  {
  }

  ghost predicate Legal(steps: seq<Step>)
    decreases |steps|, 0
  {
    steps == [] || (Legal(steps[..|steps| - 1]) && Enabled(After(steps[..|steps| - 1]), steps[|steps| - 1]))
  }

  ghost function After(steps: seq<Step>): Sys
    requires Legal(steps)
    decreases |steps|, 1
  {
    if steps == [] then Sys([], map[]) else Apply(After(steps[..|steps| - 1]), steps[|steps| - 1])
  }

  /** Ids start once, and a parent never starts at or after its child. */
  ghost predicate WellFormed(evs: seq<Ev>) {
    && (forall i, j :: 0 <= i < j < |evs| && evs[i].kind.SpanStarted? && evs[j].kind.SpanStarted? ==> evs[i].id != evs[j].id)
    && (forall i, j :: 0 <= i <= j < |evs| && evs[i].kind.SpanStarted? && evs[j].kind.SpanStarted? ==> evs[i].parent != evs[j].id)
    && (forall i :: 0 <= i < |evs| && evs[i].kind.SpanStarted? ==> evs[i].id != "")
  }

  lemma StepKeeps(s: Sys, step: Step)
    requires WellFormed(s.journal) && Enabled(s, step)
    ensures WellFormed(Apply(s, step).journal)
  {
    hide ParentOf;
    var t := Apply(s, step).journal;
    assert forall i :: 0 <= i < |s.journal| ==> t[i] == s.journal[i];
  }

  /** Every journal that tracers write is well formed, whatever parents their callers
      name. */
  lemma {:induction false} JournalsWellFormed(steps: seq<Step>)
    requires Legal(steps)
    ensures WellFormed(After(steps).journal)
    decreases |steps|
  {
    hide WellFormed, Apply, Enabled;
    if steps == [] {
      EmptyWellFormed();
    } else {
      JournalsWellFormed(steps[..|steps| - 1]);
      StepKeeps(After(steps[..|steps| - 1]), steps[|steps| - 1]);
    }
  }

  /** The open spans of a tracer were started, and none is open twice. */
  ghost predicate Open(s: Sys, tracer: string) {
    NoDup(StackOf(s, tracer)) && forall id :: id in StackOf(s, tracer) ==> Mentioned(s.journal, id)
  }

  lemma MentionedStays(evs: seq<Ev>, e: Ev, id: string)
    requires Mentioned(evs, id)
    ensures Mentioned(evs + [e], id)
  {
    var i :| 0 <= i < |evs| && evs[i].kind.SpanStarted? && (evs[i].id == id || evs[i].parent == id);
    assert (evs + [e])[i] == evs[i];
  }

  lemma StepKeepsOpen(s: Sys, step: Step, tracer: string)
    requires Open(s, tracer) && Enabled(s, step)
    ensures Open(Apply(s, step), tracer)
  {
    hide Mentioned, Popped, Without, ParentOf;
    var t := Apply(s, step);
    var last := t.journal[|t.journal| - 1];
    forall id | id in StackOf(s, tracer) ensures Mentioned(t.journal, id) {
      MentionedStays(s.journal, last, id);
    }
    match step {
      case Start(_, _, _, minted, _, _) => JustStarted(s.journal, last);
      case End(_, _, id, _, _, _, _) =>
        PoppedIsWithout(StackOf(s, tracer), id);
        WithoutKeeps(StackOf(s, tracer), id);
      case Append(_) =>
    }
  }

  lemma JustStarted(evs: seq<Ev>, e: Ev)
    ensures e.kind.SpanStarted? ==> Mentioned(evs + [e], e.id)
  {
    assert (evs + [e])[|evs|] == e;
  }

  /** In every run the stacks stay without repeats; so ending a span closes it for good and
      closes nothing else. */
  lemma {:induction false} StacksHaveNoRepeats(steps: seq<Step>, tracer: string, id: string)
    requires Legal(steps)
    ensures Open(After(steps), tracer)
    ensures Popped(StackOf(After(steps), tracer), id) == Without(StackOf(After(steps), tracer), id)
    decreases |steps|
  {
    hide Apply, Enabled, Popped, Mentioned;
    if steps != [] {
      StacksHaveNoRepeats(steps[..|steps| - 1], tracer, id);
      StepKeepsOpen(After(steps[..|steps| - 1]), steps[|steps| - 1], tracer);
    }
    PoppedIsWithout(StackOf(After(steps), tracer), id);
  }

  lemma EmptyWellFormed()
    ensures WellFormed([])
  {
  }

  /** One turn of a well-formed journal is well formed; the filter keeps exactly the rows
      of the turn, in order. */
  lemma {:induction false} FilterKeeps(evs: seq<Ev>, turn: string)
    requires WellFormed(evs)
    ensures WellFormed(FilterByTurn(evs, turn))
    ensures forall e :: e in FilterByTurn(evs, turn) <==> e in evs && (turn == "" || e.turn == turn)
    decreases |evs|
  {
    hide WellFormed;
    if turn != "" && evs != [] {
      var n := |evs| - 1;
      var front := evs[..n];
      assert evs == front + [evs[n]];
      PrefixWellFormed(front, evs[n]);
      FilterKeeps(front, turn);
      if evs[n].turn == turn {
        PushWellFormed(front, evs[n], FilterByTurn(front, turn));
      }
    } else if turn != "" {
      EmptyWellFormed();
    }
  }

  lemma PrefixWellFormed(front: seq<Ev>, last: Ev)
    requires WellFormed(front + [last])
    ensures WellFormed(front)
  {
    assert forall i :: 0 <= i < |front| ==> (front + [last])[i] == front[i];
  }

  lemma PushWellFormed(front: seq<Ev>, last: Ev, f: seq<Ev>)
    requires WellFormed(front + [last]) && WellFormed(f) && forall e :: e in f ==> e in front
    ensures WellFormed(f + [last])
  {
    var all := front + [last];
    assert all[|front|] == last;
    forall i | 0 <= i < |f| && f[i].kind.SpanStarted? && last.kind.SpanStarted?
      ensures f[i].id != last.id && f[i].parent != last.id && f[i].id != ""
    {
      assert f[i] in f;
      var k :| 0 <= k < |front| && front[k] == f[i];
      assert all[k] == f[i];
    }
  }
}
