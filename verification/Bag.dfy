/** Bag C, the message list of a turn, and the record of what a turn did to the outside
    world (application/agent_turn.go). */
module Bag {
  import opened Collections
  import opened Json
  import opened Text
  import opened ToolTrail
  import opened Hooks

  const MAX_CALLS := 8

  /** A tool call with its name and id trimmed, and its arguments as they came. */
  datatype ToolCall = NilCall | Call(id: string, name: string, raw: Value)

  datatype Msg =
    | System(text: string)
    | Prior(fields: Doc)
    | User(text: string)
    | Assistant(content: Option<string>, calls: seq<ToolCall>)
    | Tool(callId: string, name: string, text: string)

  /** What a turn does that others can see; `refusing` is the refusal flag at that time. */
  datatype Act =
    | Check(stopped: bool, refusing: bool)
    | Round(number: nat, refusing: bool)
    | AskLlm(messages: seq<Msg>, insight: bool, refusing: bool)
    | CallVerb(name: string, refusing: bool)
    | Inspect(refusing: bool)

  /** The message list, and the acts so far. */
  datatype Run = Run(messages: seq<Msg>, acts: seq<Act>)

  function Rounds(acts: seq<Act>): nat
    decreases |acts|
  {
    if acts == [] then 0 else Rounds(acts[..|acts| - 1]) + if acts[|acts| - 1].Round? then 1 else 0
  }

  function Asks(acts: seq<Act>): nat
    decreases |acts|
  {
    if acts == [] then 0 else Asks(acts[..|acts| - 1]) + if acts[|acts| - 1].AskLlm? then 1 else 0
  }

  function Verbs(acts: seq<Act>): nat
    decreases |acts|
  {
    if acts == [] then 0 else Verbs(acts[..|acts| - 1]) + if acts[|acts| - 1].CallVerb? then 1 else 0
  }

  ghost predicate Judged(acts: seq<Act>) {
    exists i :: 0 <= i < |acts| && acts[i].Inspect?
  }

  ghost predicate Raised(acts: seq<Act>) {
    exists i :: 0 <= i < |acts| && acts[i].refusing
  }

  // ---- refusal ----------------------------------------------------------------------------

  /** Once the flag is up it stays up, and from then on no round begins and no verb is
      called; the language model is only asked for the insight. */
  ghost predicate Orderly(acts: seq<Act>) {
    && (forall i, j :: 0 <= i < j < |acts| && acts[i].refusing ==> acts[j].refusing)
    && (forall i :: 0 <= i < |acts| && (acts[i].CallVerb? || acts[i].Round?) ==> !acts[i].refusing)
    && (forall i :: 0 <= i < |acts| && acts[i].AskLlm? && acts[i].refusing ==> acts[i].insight)
  }

  ghost predicate UpTo(acts: seq<Act>, flag: bool) {
    forall i :: 0 <= i < |acts| && acts[i].refusing ==> flag
  }

  // ---- answered calls -----------------------------------------------------------------------

  function Live(calls: seq<ToolCall>): seq<ToolCall>
    decreases |calls|
  {
    if calls == [] then []
    else if calls[|calls| - 1].NilCall? then Live(calls[..|calls| - 1])
    else Live(calls[..|calls| - 1]) + [calls[|calls| - 1]]
  }

  function First(calls: seq<ToolCall>): seq<ToolCall> {
    if |calls| > MAX_CALLS then calls[..MAX_CALLS] else calls
  }

  /** One tool message per live call, in order, under its name and (unless blank) its id. */
  ghost predicate Answers(calls: seq<ToolCall>, msgs: seq<Msg>) {
    var live := Live(calls);
    && |msgs| == |live|
    && forall k :: 0 <= k < |live| ==>
         live[k].Call? && msgs[k].Tool? && msgs[k].name == live[k].name && (live[k].id != "" ==> msgs[k].callId == live[k].id)
  }

  /** Every assistant message with calls is followed by exactly the answers to them, and
      tool messages stand nowhere else. */
  ghost predicate Disciplined(msgs: seq<Msg>)
    decreases |msgs|
  {
    msgs == [] ||
    if msgs[0].Assistant? && msgs[0].calls != [] then
      var k := |Live(First(msgs[0].calls))|;
      k < |msgs| && Answers(First(msgs[0].calls), msgs[1..k + 1]) && Disciplined(msgs[k + 1..])
    else !msgs[0].Tool? && Disciplined(msgs[1..])
  }

  /** The system message is the original one with at most one trail on it. */
  ghost predicate OneTrail(system: string, m: Msg) {
    m.System? && exists s :: m.text == UpsertText(system, s) && (s == "" || HasPrefix(s, TRAIL_HEADING))
  }

  /** What a turn is held to: the system text it began with, where its own messages start,
      the verbs it may call, whether the ask itself was an alarm, after which acts the reply
      it got was one, and what a tool message may say. */
  datatype Terms = Terms(
    system: string, base: nat, allowed: string -> bool, asked: bool, alarm: seq<Act> -> bool, benign: Msg -> bool)

  /** No tool message of the turn says what it may not. */
  ghost predicate Contained(t: Terms, msgs: seq<Msg>) {
    forall i :: t.base <= i < |msgs| && msgs[i].Tool? ==> t.benign(msgs[i])
  }

  /** What a request to the language model may look like. */
  ghost predicate Sent(t: Terms, msgs: seq<Msg>) {
    1 <= t.base <= |msgs| && OneTrail(t.system, msgs[0]) && Disciplined(msgs[t.base..]) && Contained(t, msgs)
  }

  /** Requests only grow behind the system message. */
  ghost predicate Growing(acts: seq<Act>) {
    forall i, j :: 0 <= i < j < |acts| && acts[i].AskLlm? && acts[j].AskLlm? && 0 < |acts[i].messages| && 0 < |acts[j].messages|
      ==> acts[i].messages[1..] <= acts[j].messages[1..]
  }

  ghost predicate AllSent(t: Terms, acts: seq<Act>) {
    forall i :: 0 <= i < |acts| && acts[i].AskLlm? ==> Sent(t, acts[i].messages)
  }

  ghost predicate Behind(acts: seq<Act>, msgs: seq<Msg>) {
    forall i :: 0 <= i < |acts| && acts[i].AskLlm? && 0 < |acts[i].messages| ==> 0 < |msgs| && acts[i].messages[1..] <= msgs[1..]
  }

  ghost predicate AllAllowed(t: Terms, acts: seq<Act>) {
    forall i :: 0 <= i < |acts| && acts[i].CallVerb? ==> t.allowed(acts[i].name)
  }

  /** An alarm in a reply raises the flag for every later act. */
  ghost predicate Heeded(t: Terms, acts: seq<Act>) {
    forall k, j :: 1 <= k <= j < |acts| && t.alarm(acts[..k]) ==> acts[j].refusing
  }

  ghost predicate Warned(t: Terms, acts: seq<Act>, flag: bool) {
    forall k :: 1 <= k <= |acts| && t.alarm(acts[..k]) ==> flag
  }

  /** There was an alarm, in the ask or in a reply. */
  ghost predicate Alarmed(t: Terms, acts: seq<Act>) {
    t.asked || exists k :: 1 <= k <= |acts| && t.alarm(acts[..k])
  }

  /** The flag is never up without an alarm before. */
  ghost predicate Caused(t: Terms, acts: seq<Act>) {
    forall j :: 0 <= j < |acts| && acts[j].refusing ==> Alarmed(t, acts[..j])
  }

  /** The invariant of a turn under way: its message list and its record. */
  ghost predicate Ok(r: Run, t: Terms, flag: bool) {
    && 1 <= t.base <= |r.messages| && OneTrail(t.system, r.messages[0])
    && Orderly(r.acts) && UpTo(r.acts, flag) && Growing(r.acts) && AllSent(t, r.acts) && Behind(r.acts, r.messages)
    && AllAllowed(t, r.acts) && Heeded(t, r.acts) && Warned(t, r.acts, flag) && Contained(t, r.messages)
    && Caused(t, r.acts) && (flag ==> Alarmed(t, r.acts))
  }

  // ---- how a run goes on ----------------------------------------------------------------------

  lemma CountPush(acts: seq<Act>, a: Act)
    ensures Rounds(acts + [a]) == Rounds(acts) + if a.Round? then 1 else 0
    ensures Asks(acts + [a]) == Asks(acts) + if a.AskLlm? then 1 else 0
    ensures Verbs(acts + [a]) == Verbs(acts) + if a.CallVerb? then 1 else 0
    ensures Judged(acts + [a]) <==> Judged(acts) || a.Inspect?
    ensures Raised(acts + [a]) <==> Raised(acts) || a.refusing
  {
    var all := acts + [a];
    assert all[..|acts|] == acts && all[|acts|] == a;
    assert forall i :: 0 <= i < |acts| ==> all[i] == acts[i];
  }

  lemma HeededPush(acts: seq<Act>, a: Act, t: Terms, flag: bool, later: bool)
    requires Heeded(t, acts) && Warned(t, acts, flag) && a.refusing == flag
    requires (flag ==> later) && (t.alarm(acts + [a]) ==> later)
    ensures Heeded(t, acts + [a]) && Warned(t, acts + [a], later)
  {
    var all := acts + [a];
    forall k | 1 <= k <= |all| && t.alarm(all[..k]) ensures later && (k <= |acts| ==> flag) {
      if k <= |acts| {
        assert all[..k] == acts[..k];
      } else {
        assert all[..k] == all;
      }
    }
    forall k, j | 1 <= k <= j < |all| && t.alarm(all[..k]) ensures all[j].refusing {
      assert all[..k] == acts[..k];
    }
  }

  lemma AlarmedGrows(acts: seq<Act>, a: Act, t: Terms)
    ensures Alarmed(t, acts) || t.alarm(acts + [a]) ==> Alarmed(t, acts + [a])
  {
    var all := acts + [a];
    if exists k :: 1 <= k <= |acts| && t.alarm(acts[..k]) {
      var k :| 1 <= k <= |acts| && t.alarm(acts[..k]);
      assert all[..k] == acts[..k];
    }
    assert all[..|all|] == all;
  }

  lemma CausedPush(acts: seq<Act>, a: Act, t: Terms, flag: bool)
    requires Caused(t, acts) && (flag ==> Alarmed(t, acts)) && a.refusing == flag
    ensures Caused(t, acts + [a])
  {
    hide Alarmed;
    var all := acts + [a];
    forall j | 0 <= j < |all| && all[j].refusing ensures Alarmed(t, all[..j]) {
      assert all[..j] == acts[..j];
      assert acts[..|acts|] == acts;
    }
  }

  /** An act that is no request, with the flag as it was before and as it is after what
      came back. */
  lemma ActKeeps(r: Run, a: Act, t: Terms, flag: bool, later: bool)
    requires Ok(r, t, flag) && a.refusing == flag && !a.AskLlm?
    requires a.CallVerb? ==> !flag && t.allowed(a.name)
    requires a.Round? ==> !flag
    requires later <==> flag || t.alarm(r.acts + [a])
    ensures Ok(r.(acts := r.acts + [a]), t, later)
  {
    HeededPush(r.acts, a, t, flag, later);
    CausedPush(r.acts, a, t, flag);
    AlarmedGrows(r.acts, a, t);
    hide OneTrail, Sent, Disciplined, Heeded, Warned, Caused, Alarmed;
    var all := r.acts + [a];
    assert forall i :: 0 <= i < |r.acts| ==> all[i] == r.acts[i];
  }

  lemma AskKeeps(r: Run, insight: bool, t: Terms, flag: bool, later: bool)
    requires Ok(r, t, flag) && Disciplined(r.messages[t.base..]) && (flag ==> insight)
    requires later <==> flag || t.alarm(r.acts + [AskLlm(r.messages, insight, flag)])
    ensures Ok(r.(acts := r.acts + [AskLlm(r.messages, insight, flag)]), t, later)
  {
    HeededPush(r.acts, AskLlm(r.messages, insight, flag), t, flag, later);
    CausedPush(r.acts, AskLlm(r.messages, insight, flag), t, flag);
    AlarmedGrows(r.acts, AskLlm(r.messages, insight, flag), t);
    hide OneTrail, Disciplined, Heeded, Warned, Caused, Alarmed;
    var all := r.acts + [AskLlm(r.messages, insight, flag)];
    assert forall i :: 0 <= i < |r.acts| ==> all[i] == r.acts[i];
  }

  lemma FlagRises(r: Run, t: Terms, flag: bool, later: bool)
    requires Ok(r, t, flag) && (flag ==> later) && (later ==> flag || t.asked)
    ensures Ok(r, t, later)
  {
    hide OneTrail, Orderly, Growing, AllSent, Behind, AllAllowed, Heeded, Caused;
  }

  lemma MessagesGrow(r: Run, more: seq<Msg>, t: Terms, flag: bool)
    requires Ok(r, t, flag) && forall i :: 0 <= i < |more| && more[i].Tool? ==> t.benign(more[i])
    ensures Ok(r.(messages := r.messages + more), t, flag)
    ensures (r.messages + more)[t.base..] == r.messages[t.base..] + more
  {
    hide OneTrail, Orderly, Growing, AllSent, UpTo, AllAllowed, Heeded, Warned, Caused, Alarmed;
    assert (r.messages + more)[1..] == r.messages[1..] + more;
  }

  /** Splicing the trail keeps the list behind the system message. */
  lemma TrailKeeps(r: Run, snippet: string, t: Terms, flag: bool)
    requires Ok(r, t, flag) && (snippet == "" || HasPrefix(snippet, TRAIL_HEADING))
    ensures r.messages[0].System?
    ensures var m := r.messages[0 := System(UpsertText(r.messages[0].text, snippet))];
      Ok(r.(messages := m), t, flag) && m[t.base..] == r.messages[t.base..]
  {
    hide Orderly, Growing, AllSent, UpTo, UpsertText, AllAllowed, Heeded, Warned, Caused, Alarmed;
    var text := r.messages[0].text;
    var m := r.messages[0 := System(UpsertText(text, snippet))];
    assert m[1..] == r.messages[1..];
    var s :| text == UpsertText(t.system, s) && (s == "" || HasPrefix(s, TRAIL_HEADING));
    if snippet == "" {
      NothingToUpsert(text);
    } else if s == "" {
      NothingToUpsert(t.system);
    } else {
      UpsertReplaces(t.system, s, snippet);
    }
  }

  lemma {:induction false} DisciplinedConcat(a: seq<Msg>, b: seq<Msg>)
    requires Disciplined(a) && Disciplined(b)
    ensures Disciplined(a + b)
    decreases |a|
  {
    hide Answers, Live, First;
    if a == [] {
      assert a + b == b;
    } else if a[0].Assistant? && a[0].calls != [] {
      var k := |Live(First(a[0].calls))|;
      assert (a + b)[1..k + 1] == a[1..k + 1];
      assert (a + b)[k + 1..] == a[k + 1..] + b;
      DisciplinedConcat(a[k + 1..], b);
    } else {
      assert (a + b)[1..] == a[1..] + b;
      DisciplinedConcat(a[1..], b);
    }
  }

  lemma DisciplinedOne(m: Msg)
    requires !m.Tool? && (m.Assistant? ==> m.calls == [])
    ensures Disciplined([m])
  {
    assert [m][1..] == [];
  }

  lemma DisciplinedRound(content: Option<string>, calls: seq<ToolCall>, msgs: seq<Msg>)
    requires calls != [] && Answers(First(calls), msgs)
    ensures Disciplined([Assistant(content, calls)] + msgs)
  {
    hide Live, First;
    var all := [Assistant(content, calls)] + msgs;
    assert all[1..|msgs| + 1] == msgs;
    assert all[|msgs| + 1..] == [];
  }

  lemma AnswerPush(calls: seq<ToolCall>, n: nat, msgs: seq<Msg>, m: Msg)
    requires n < |calls| && Answers(calls[..n], msgs)
    requires calls[n].Call? ==> m.Tool? && m.name == calls[n].name && (calls[n].id != "" ==> m.callId == calls[n].id)
    ensures calls[n].NilCall? ==> Answers(calls[..n + 1], msgs)
    ensures calls[n].Call? ==> Answers(calls[..n + 1], msgs + [m])
  {
    assert calls[..n + 1][..n] == calls[..n];
  }

  lemma NoAnswers(calls: seq<ToolCall>)
    ensures Answers(calls[..0], [])
  {
  }

  /** Answers to the first eight calls answer all of them exactly when no live call comes
      later. */
  lemma {:induction false} NinthIsUnanswered(calls: seq<ToolCall>, msgs: seq<Msg>)
    requires Answers(First(calls), msgs)
    ensures Answers(calls, msgs) <==> forall i :: MAX_CALLS <= i < |calls| ==> calls[i].NilCall?
  {
    if |calls| > MAX_CALLS {
      LiveSplit(calls, MAX_CALLS);
    }
  }

  lemma {:induction false} LiveSplit(calls: seq<ToolCall>, n: nat)
    requires n <= |calls|
    ensures Live(calls[..n]) <= Live(calls)
    ensures |Live(calls)| == |Live(calls[..n])| <==> forall i :: n <= i < |calls| ==> calls[i].NilCall?
    decreases |calls|
  {
    if n == |calls| {
      assert calls[..n] == calls;
    } else {
      var front := calls[..|calls| - 1];
      assert front[..n] == calls[..n];
      LiveSplit(front, n);
      assert forall i :: n <= i < |front| ==> calls[i] == front[i];
    }
  }
}
