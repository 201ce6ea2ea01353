/** One agent turn (application/agent_turn.go): rounds of language-model requests and tool
    calls over one message list, the refusal flag of the hooks, and the policy stage. */
module AgentTurn {
  import opened Collections
  import opened Text
  import opened Json
  import opened ToolTrail
  import opened Hooks
  import opened Bag
  import opened Turn
  import opened TurnLaws
  import P = Policy

  /** The last act got a reply that must be refused; the insight is judged as the answer. */
  ghost predicate Alarming(env: Env, acts: seq<Act>) {
    acts != [] && match acts[|acts| - 1]
                  case AskLlm(_, insight, _) => !insight && ReplyAlarms(env, env.llm(acts))
                  case CallVerb(_, _) => VerbAlarms(env, env.verb(acts))
                  case _ => false
  }

  /** What a tool message may say: the arguments of a return, a notice of the client, the
      text that stands in for an untrusted body, or a reply that raised no alarm. */
  ghost predicate Benign(env: Env, m: Msg) {
    m.Tool? &&
    (|| m.name == "return" || m.name == "return_result"
     || m.text == Notice(env, "verb_denied", m.name) || m.text == Notice(env, "turn_refused", m.name)
     || m.text == env.truncate(UNTRUSTED)
     || exists acts :: !env.verb(acts).Cancelled? && !VerbAlarms(env, env.verb(acts))
                       && m.text == env.truncate(PlainText(env, env.verb(acts))))
  }

  ghost predicate Fits(t: Terms, env: Env, ctx: MiddlewareContext) {
    && (forall acts :: t.alarm(acts) <==> Alarming(env, acts))
    && (forall name :: t.allowed(name) <==> Callable(ctx.deniedVerbs, ctx.catalog, name))
    && (forall m :: t.benign(m) <==> Benign(env, m))
  }

  /** The hooks of a turn between two of its steps. */
  ghost predicate Loyal(ctx: MiddlewareContext)
    reads ctx
  {
    && Agree(ctx.Value()) && ctx.override.None?
    && forall name :: name in ctx.denied ==> VerbDenied(ctx.deniedVerbs, ctx.catalog, name)
  }

  ghost function Gate(ctx: MiddlewareContext): Limits { Limits(ctx.deniedVerbs, ctx.catalog) }

  /** The hooks around a call keep what they must keep. */
  method HookBefore(ctx: MiddlewareContext, name: string)
    requires Loyal(ctx)
    modifies ctx
    ensures Loyal(ctx) && ctx.mustRefuse == old(ctx.mustRefuse)
    ensures ctx.Value() == BeforeZeus(old(ctx.Value()), ctx.deniedVerbs, ctx.catalog, name)
    ensures name in ctx.denied <==> VerbDenied(ctx.deniedVerbs, ctx.catalog, name)
  {
    hide Fold, VerbDenied, FirstSeen, NoDup;
    CallHeeds(ctx.Value(), ctx.deniedVerbs, ctx.catalog, name);
    EventKeeps(ctx.Value(), Calling(name), ctx.deniedVerbs, ctx.catalog);
    ctx.BeforeCall(name);
  }

  method HookAfter(ctx: MiddlewareContext, a: Assessment) returns (override: Option<string>)
    requires Loyal(ctx) && Sound(a)
    modifies ctx
    ensures Loyal(ctx) && (ctx.mustRefuse <==> old(ctx.mustRefuse) || a.mustRefuse)
    ensures ctx.Value() == AfterZeus(old(ctx.Value()), a).(override := None)
    ensures override == AfterZeus(old(ctx.Value()), a).override == if a.mustRefuse then Some(UNTRUSTED) else None
  {
    hide FirstSeen, NoDup, VerbDenied;
    EventKeeps(ctx.Value(), Answered(a), ctx.deniedVerbs, ctx.catalog);
    FoldHeeds(ctx.Value(), a);
    ctx.AfterCall(a);
    override := ctx.TakeOverride();
  }

  lemma VerbAlarm(env: Env, acts: seq<Act>)
    requires acts != [] && acts[|acts| - 1].CallVerb?
    ensures Alarming(env, acts) <==> VerbAlarms(env, env.verb(acts))
  {
  }

  lemma NoAlarm(env: Env, acts: seq<Act>)
    requires acts != []
    requires match acts[|acts| - 1]
             case AskLlm(_, insight, _) => insight || env.llm(acts).LlmFailed?
             case CallVerb(_, _) => env.verb(acts).Cancelled?
             case _ => true
    ensures !Alarming(env, acts)
  {
  }

  lemma PlainIs(env: Env, reply: VerbReply, hop: VerbReply)
    requires !reply.Cancelled?
    requires hop == if reply.VerbFailed? then Answer(false, 0, reply.error, "", "", map[]) else reply
    ensures hop.Answer? && PlainText(env, reply) == if hop.body == map[] then hop.error else env.json(hop.body)
    ensures VerbAlarms(env, reply) <==> env.assess(Obj(hop.body)).mustRefuse
  {
  }

  /** Only bodies are judged: the error text of a hop without a body reaches the model
      whatever it says. */
  lemma {:induction false} ErrorTextIsNotJudged(env: Env, reply: VerbReply, error: string)
    requires reply.Answer?
    ensures VerbAlarms(env, reply.(error := error)) <==> VerbAlarms(env, reply)
    ensures PlainText(env, reply.(error := error)) == (if reply.body == map[] then error else PlainText(env, reply))
    ensures VerbAlarms(env, VerbFailed(error)) <==> env.assess(Obj(map[])).mustRefuse
    ensures PlainText(env, VerbFailed(error)) == error
  {
  }

  lemma HopIsBenign(env: Env, m: Msg, acts: seq<Act>)
    requires m.Tool? && !env.verb(acts).Cancelled?
    requires m.text == env.truncate(UNTRUSTED)
          || (!VerbAlarms(env, env.verb(acts)) && m.text == env.truncate(PlainText(env, env.verb(acts))))
    ensures Benign(env, m)
  {
  }

  lemma NoticeIsBenign(env: Env, m: Msg)
    requires m.Tool?
    requires m.name == "return" || m.name == "return_result"
          || m.text == Notice(env, "verb_denied", m.name) || m.text == Notice(env, "turn_refused", m.name)
    ensures Benign(env, m)
  {
  }

  /** The two runs differ in messages and hops only: no round, no request, no inspection. */
  ghost predicate SameRound(a: Run, b: Run) {
    Rounds(a.acts) == Rounds(b.acts) && Asks(a.acts) == Asks(b.acts) && (Judged(a.acts) <==> Judged(b.acts))
  }

  /** What a method did is what the reference says. */
  ghost predicate Shows(c: Tools, base: seq<Msg>, run: Run, out: Outcome, hooks: State, err: bool) {
    run == Run(base + c.msgs, c.acts) && out == c.out && hooks == c.hooks && err == c.err
  }

  /** The hop of one call; only a call that is not refused gets here. */
  method CallHop(env: Env, ctx: MiddlewareContext, call: ToolCall, callId: string, run0: Run, out0: Outcome,
                 ghost t: Terms, ghost base: seq<Msg>, ghost b: Tools)
    returns (run: Run, out: Outcome, err: bool)
    requires env.Valid() && Loyal(ctx) && call.Call? && !ctx.mustRefuse && (call.id != "" ==> callId == call.id)
    requires Ok(run0, t, false) && Counted(out0) && Fits(t, env, ctx) && Callable(ctx.deniedVerbs, ctx.catalog, call.name)
    requires Shows(b, base, run0, out0, ctx.Value(), false)
    modifies ctx
    ensures Loyal(ctx)
    ensures Ok(run, t, ctx.mustRefuse) && Counted(out) && SameRound(run0, run)
    ensures Verbs(run.acts) == Verbs(run0.acts) + 1
    ensures if err then run.messages == run0.messages && out == out0
            else |out.hops| == |out0.hops| + 1
                 && exists m :: run.messages == run0.messages + [m] && Matches(call, m)
    ensures Shows(Sends(env, call, callId, b), base, run, out, ctx.Value(), err)
  {
    hide Ok, Rounds, Asks, Verbs, Judged, Raised, Counted, Loyal, Sound, Alarming, Callable, Benign, IsEmptyJson, TrimSpace,
      TextOr, PipelineReturn, IsReturn, SummaryFromTerminal, AfterZeus;
    var a := CallVerb(call.name, false);
    run := run0.(acts := run0.acts + [a]);
    CountPush(run0.acts, a);
    out, err := out0, false;
    var reply := env.verb(run.acts);
    if reply.Cancelled? {
      NoAlarm(env, run.acts);
      ActKeeps(run0, a, t, false, ctx.mustRefuse);
      err := true;
      return;
    }
    var hop := if reply.VerbFailed? then Answer(false, 0, reply.error, "", "", map[]) else reply;
    var body := hop.body;
    var text := if body == map[] then hop.error else env.json(body);
    PlainIs(env, reply, hop);
    var override := HookAfter(ctx, env.assess(Obj(body)));
    VerbAlarm(env, run.acts);
    ActKeeps(run0, a, t, false, ctx.mustRefuse);
    if override.Some? {
      text := override.value;
      body := map["error" := Str("untrusted_tool_payload")];
    }
    text := env.truncate(text);
    var m := Tool(callId, call.name, text);
    HopIsBenign(env, m, run.acts);
    run := Reply1(run, m, t, ctx.mustRefuse);
    assert run.messages == run0.messages + [m] && Matches(call, m);
    assert base + b.msgs + [m] == base + (b.msgs + [m]);
    out := Tally(env, out, call, hop, body, text);
  }

  /** What a hop adds to the outcome of its round. */
  method Tally(env: Env, out0: Outcome, call: ToolCall, hop: VerbReply, body: Doc, text: string) returns (out: Outcome)
    requires call.Call? && hop.Answer? && Counted(out0)
    ensures out == AddHop(env, out0, call, hop, body, text) && Counted(out) && |out.hops| == |out0.hops| + 1
  {
    hide IsEmptyJson, TrimSpace, TextOr, PipelineReturn, IsReturn, SummaryFromTerminal;
    out := out0.(executed := out0.executed + 1,
                 hops := out0.hops + [Hop(hop.reqId, call.name, hop.status, hop.ok, hop.error, hop.url, env.clip(text))]);
    if !hop.ok || IsEmptyJson(Obj(body)) || TrimSpace(text) == "" {
      out := out.(empty := out.empty + 1);
    } else {
      out := out.(withData := out.withData + 1);
      if call.name != "describe" && call.name != "explain" { out := out.(withPayload := out.withPayload + 1); }
    }
    if call.name == "pipeline" && "turn_complete" in body && body["turn_complete"] == Bool(true) {
      var args := env.args(call.raw);
      out := out.(returnSeen := true);
      if out.finalSummary == "" { out := out.(finalSummary := SummaryFromTerminal(body, args)); }
      var cand := PipelineReturn(args, body);
      if IsReturn(cand) { out := out.(returnArgs := Some(cand)); }
    }
  }

  /** One tool call: a terminate name, a denied verb, a refused one, or a hop. */
  method OneCall(env: Env, ctx: MiddlewareContext, call: ToolCall, run0: Run, out0: Outcome,
                 ghost t: Terms, ghost base: seq<Msg>, ghost b: Tools)
    returns (run: Run, out: Outcome, err: bool)
    requires env.Valid() && Loyal(ctx) && call.Call?
    requires Ok(run0, t, ctx.mustRefuse) && Counted(out0) && Fits(t, env, ctx)
    requires Shows(b, base, run0, out0, ctx.Value(), false)
    modifies ctx
    ensures Loyal(ctx) && (old(ctx.mustRefuse) ==> ctx.mustRefuse)
    ensures Ok(run, t, ctx.mustRefuse) && Counted(out) && SameRound(run0, run)
    ensures if err then run.messages == run0.messages && out.hops == out0.hops
            else exists m :: run.messages == run0.messages + [m] && Matches(call, m)
    ensures Verbs(run0.acts) <= Verbs(run.acts) <= Verbs(run0.acts) + 1
    ensures !err ==> |out.hops| - |out0.hops| == Verbs(run.acts) - Verbs(run0.acts)
    ensures old(ctx.mustRefuse) ==> Verbs(run.acts) == Verbs(run0.acts)
    ensures Shows(Called(env, Gate(ctx), call, b), base, run, out, ctx.Value(), err)
  {
    hide Ok, Rounds, Asks, Verbs, Judged, Loyal, TextOr, AsString, Alarming, VerbDenied, Benign, Sends, BeforeZeus;
    run, out, err := run0, out0, false;
    var callId := if call.id == "" then env.mint(run.acts) else call.id;
    out := out.(argSummary := TextOr(env.args(call.raw), "summary", out.argSummary));
    var m: Msg;
    if call.name == "return" || call.name == "return_result" {
      out := out.(finalSummary := AsString(env.args(call.raw), "summary"), returnSeen := true, returnArgs := Some(env.args(call.raw)));
      m := Tool(callId, call.name, env.json(env.args(call.raw)));
    } else {
      HookBefore(ctx, call.name);
      if call.name in ctx.denied {
        m := Tool(callId, call.name, env.json(map["error" := Str("verb_denied"), "verb" := Str(call.name)]));
      } else if ctx.mustRefuse {
        m := Tool(callId, call.name, env.json(map["error" := Str("turn_refused"), "verb" := Str(call.name)]));
      } else {
        run, out, err := CallHop(env, ctx, call, callId, run, out, t, base, b.(out := out, hooks := ctx.Value()));
        return;
      }
    }
    NoticeIsBenign(env, m);
    run := Reply1(run, m, t, ctx.mustRefuse);
    assert run.messages == run0.messages + [m] && Matches(call, m);
    assert base + b.msgs + [m] == base + (b.msgs + [m]);
  }

  /** Appends a message. */
  method Reply1(run0: Run, m: Msg, ghost t: Terms, ghost flag: bool) returns (run: Run)
    requires Ok(run0, t, flag) && (m.Tool? ==> t.benign(m))
    ensures Ok(run, t, flag) && run.acts == run0.acts && run.messages == run0.messages + [m]
  {
    hide Ok;
    run := run0.(messages := run0.messages + [m]);
    MessagesGrow(run0, [m], t, flag);
  }

  /** Records an act that gets no reply. */
  method Record(run0: Run, a: Act, ghost t: Terms, ghost flag: bool) returns (run: Run)
    requires Ok(run0, t, flag) && a.refusing == flag && (a.Check? || a.Round? || a.Inspect?)
    requires (a.Round? ==> !flag) && !t.alarm(run0.acts + [a])
    ensures Ok(run, t, flag) && run.messages == run0.messages && run.acts == run0.acts + [a]
    ensures Rounds(run.acts) == Rounds(run0.acts) + if a.Round? then 1 else 0
    ensures Asks(run.acts) == Asks(run0.acts)
    ensures Verbs(run.acts) == Verbs(run0.acts)
    ensures Judged(run.acts) <==> Judged(run0.acts) || a.Inspect?
  {
    hide Ok, Rounds, Asks, Verbs, Judged, Raised;
    run := run0.(acts := run0.acts + [a]);
    ActKeeps(run0, a, t, flag, flag);
    CountPush(run0.acts, a);
  }

  /** Asks the language model on the current messages; outside of the insight its reply
      goes through the hooks at once. */
  method AskModel(env: Env, ctx: MiddlewareContext, run0: Run, insight: bool, ghost t: Terms) returns (run: Run, reply: LlmReply)
    requires env.Valid() && Loyal(ctx) && Fits(t, env, ctx)
    requires Ok(run0, t, ctx.mustRefuse) && Clean(run0, t.base) && (ctx.mustRefuse ==> insight)
    modifies ctx
    ensures Loyal(ctx) && (old(ctx.mustRefuse) ==> ctx.mustRefuse)
    ensures insight || !ReplyAlarms(env, reply) ==> ctx.mustRefuse == old(ctx.mustRefuse)
    ensures run == run0.(acts := run0.acts + [AskLlm(run0.messages, insight, old(ctx.mustRefuse))]) && reply == env.llm(run.acts)
    ensures ctx.Value() == if insight || reply.LlmFailed? then old(ctx.Value())
      else FoldAll(old(ctx.Value()), ReplyParts(env.assess, Str(reply.content), RawArgs(reply.calls)))
    ensures Ok(run, t, ctx.mustRefuse) && run.messages == run0.messages
    ensures Rounds(run.acts) == Rounds(run0.acts) && Asks(run.acts) == Asks(run0.acts) + 1
    ensures Verbs(run.acts) == Verbs(run0.acts)
    ensures Judged(run.acts) <==> Judged(run0.acts)
  {
    hide Ok, Rounds, Asks, Verbs, Judged, Raised, Disciplined, Alarming, Loyal, ReplyAlarms;
    var a := AskLlm(run0.messages, insight, ctx.mustRefuse);
    run := run0.(acts := run0.acts + [a]);
    CountPush(run0.acts, a);
    reply := env.llm(run.acts);
    if insight || reply.LlmFailed? {
      NoAlarm(env, run.acts);
    } else {
      HookReply(env, ctx, reply.content, reply.calls);
      ReplyAlarm(env, run.acts);
    }
    AskKeeps(run0, insight, t, old(ctx.mustRefuse), ctx.mustRefuse);
  }

  lemma ReplyAlarm(env: Env, acts: seq<Act>)
    requires acts != [] && acts[|acts| - 1].AskLlm? && !acts[|acts| - 1].insight
    ensures Alarming(env, acts) <==> ReplyAlarms(env, env.llm(acts))
  {
  }

  /** The model's reply goes through the hooks. */
  method HookReply(env: Env, ctx: MiddlewareContext, content: string, calls: seq<ToolCall>)
    requires env.Valid() && Loyal(ctx)
    modifies ctx
    ensures Loyal(ctx) && (ctx.mustRefuse <==> old(ctx.mustRefuse) || ReplyAlarms(env, Reply(content, calls)))
    ensures ctx.Value() == FoldAll(old(ctx.Value()), ReplyParts(env.assess, Str(content), RawArgs(calls)))
  {
    hide FirstSeen, NoDup, Fold, FoldAll, Sound, VerbDenied;
    ghost var parts := ReplyParts(env.assess, Str(content), RawArgs(calls));
    FoldAllLeaves(ctx.Value(), parts);
    EventKeeps(ctx.Value(), Replied(parts), [], {});
    FoldAllHeeds(ctx.Value(), parts);
    ctx.AfterLLM(env.assess, Str(content), RawArgs(calls));
  }

  /** Every call among the turn's own messages is answered. */
  ghost predicate Clean(r: Run, base: nat) { base <= |r.messages| && Disciplined(r.messages[base..]) }

  lemma CleanAdd(r: Run, more: seq<Msg>, t: Terms, flag: bool)
    requires Ok(r, t, flag) && Clean(r, t.base) && Disciplined(more)
    ensures Clean(r.(messages := r.messages + more), t.base)
  {
    hide Ok, Disciplined;
    assert (r.messages + more)[t.base..] == r.messages[t.base..] + more;
    DisciplinedConcat(r.messages[t.base..], more);
  }

  ghost predicate Unstopped(env: Env) { forall acts :: !env.stopped(acts) }

  predicate AllNil(calls: seq<ToolCall>) { forall i :: 0 <= i < |calls| ==> calls[i].NilCall? }

  /** A world in which the model asks for nothing, round after round, and nothing stops the
      turn. */
  ghost predicate Idle(env: Env, s: Settings) {
    && s.zeus && Unstopped(env)
    && forall acts :: env.llm(acts).Reply? && env.llm(acts).calls != [] && AllNil(env.llm(acts).calls)
                      && !ReplyAlarms(env, env.llm(acts))
  }

  lemma NoCalls(env: Env, l: Limits, calls: seq<ToolCall>, b: Tools)
    ensures CallAll(env, l, calls[..0], b) == b
  {
  }

  lemma MoreCalls(env: Env, l: Limits, calls: seq<ToolCall>, n: nat, b: Tools)
    requires n < |calls| && !CallAll(env, l, calls[..n], b).err
    ensures var c := CallAll(env, l, calls[..n], b);
      var stopped := env.stopped(c.acts);
      var d := c.(acts := c.acts + [Check(stopped, c.hooks.mustRefuse)]);
      CallAll(env, l, calls[..n + 1], b)
      == if stopped then d.(err := true)
         else if calls[n].NilCall? then d.(replies := d.replies + [None])
         else Called(env, l, calls[n], d)
  {
    hide Called;
    assert calls[..n + 1][..n] == calls[..n];
  }

  /** Nothing is called after an error. */
  lemma {:induction false} Halted(env: Env, l: Limits, calls: seq<ToolCall>, n: nat, b: Tools)
    requires n < |calls| && CallAll(env, l, calls[..n + 1], b).err
    ensures CallAll(env, l, calls, b) == CallAll(env, l, calls[..n + 1], b)
    decreases |calls|
  {
    hide Called;
    if n + 1 < |calls| {
      var front := calls[..|calls| - 1];
      assert front[..n + 1] == calls[..n + 1];
      Halted(env, l, front, n, b);
    } else {
      assert calls[..n + 1] == calls;
    }
  }

  /** executeToolCalls: at most MAX_CALLS calls, one after the other. */
  method ExecuteToolCalls(env: Env, ctx: MiddlewareContext, calls: seq<ToolCall>, run0: Run, ghost t: Terms)
    returns (run: Run, out: Outcome, err: bool)
    requires env.Valid() && Loyal(ctx) && Ok(run0, t, ctx.mustRefuse) && Fits(t, env, ctx)
    modifies ctx
    ensures Loyal(ctx) && (old(ctx.mustRefuse) ==> ctx.mustRefuse)
    ensures Ok(run, t, ctx.mustRefuse) && Counted(out) && SameRound(run0, run)
    ensures run0.messages <= run.messages
    ensures !err ==> Answers(First(calls), run.messages[|run0.messages|..])
    ensures Verbs(run0.acts) <= Verbs(run.acts) <= Verbs(run0.acts) + MAX_CALLS
    ensures |out.hops| <= Verbs(run.acts) - Verbs(run0.acts)
    ensures !err ==> |out.hops| == Verbs(run.acts) - Verbs(run0.acts)
    ensures old(ctx.mustRefuse) ==> Verbs(run.acts) == Verbs(run0.acts)
    ensures Unstopped(env) && AllNil(calls) ==> !err && out == NOTHING && ctx.mustRefuse == old(ctx.mustRefuse)
    ensures Shows(Tooled(env, Gate(ctx), calls, run0.acts, old(ctx.Value())), run0.messages, run, out, ctx.Value(), err)
  {
    hide Ok, Rounds, Asks, Verbs, Judged, Answers, Loyal, Counted, Alarming, Callable, Benign, Called, CallAll;
    NothingCounted();
    ghost var l, b := Gate(ctx), Tools(run0.acts, [], NOTHING, ctx.Value(), [], false);
    run, out, err := run0, NOTHING, false;
    var todo := First(calls);
    ghost var msgs: seq<Msg> := [];
    NoAnswers(todo);
    NoCalls(env, l, todo, b);
    for i := 0 to |todo|
      invariant !err && Loyal(ctx) && (old(ctx.mustRefuse) ==> ctx.mustRefuse)
      invariant Ok(run, t, ctx.mustRefuse) && Counted(out) && SameRound(run0, run)
      invariant run.messages == run0.messages + msgs && Answers(todo[..i], msgs)
      invariant Verbs(run0.acts) <= Verbs(run.acts) <= Verbs(run0.acts) + i
      invariant |out.hops| == Verbs(run.acts) - Verbs(run0.acts)
      invariant old(ctx.mustRefuse) ==> Verbs(run.acts) == Verbs(run0.acts)
      invariant AllNil(calls) ==> out == NOTHING && ctx.mustRefuse == old(ctx.mustRefuse)
      invariant Shows(CallAll(env, l, todo[..i], b), run0.messages, run, out, ctx.Value(), false)
    {
      ghost var c := CallAll(env, l, todo[..i], b);
      MoreCalls(env, l, todo, i, b);
      var stopped := env.stopped(run.acts);
      NoAlarm(env, run.acts + [Check(stopped, ctx.mustRefuse)]);
      run := Record(run, Check(stopped, ctx.mustRefuse), t, ctx.mustRefuse);
      if stopped {
        Halted(env, l, todo, i, b);
        return run, out, true;
      }
      if todo[i].NilCall? {
        AnswerPush(todo, i, msgs, User(""));
      } else {
        ghost var before := run.messages;
        run, out, err := OneCall(env, ctx, todo[i], run, out, t, run0.messages, c.(acts := run.acts));
        if err {
          Halted(env, l, todo, i, b);
          return;
        }
        ghost var m :| run.messages == before + [m] && Matches(todo[i], m);
        AnswerPush(todo, i, msgs, m);
        assert run0.messages + msgs + [m] == run0.messages + (msgs + [m]);
        msgs := msgs + [m];
      }
    }
    assert todo[..|todo|] == todo;
    assert run.messages[|run0.messages|..] == msgs;
  }

  method ExtendTrail(env: Env, p0: Progress, hops: seq<Hop>) returns (p: Progress)
    requires TrailOk(env, p0)
    ensures TrailOk(env, p) && p.hops == p0.hops + hops && p == p0.(hops := p.hops, trail := Trailed(env, p0.trail, hops))
  {
    hide TrailEntry, TrimSpace;
    var trail := p0.trail;
    for n := 0 to |hops|
      invariant |trail| == |p0.hops| + n
      invariant forall i :: 0 <= i < |trail| ==> trail[i] == EntryOf(env, (p0.hops + hops)[i], i + 1)
    {
      var h := hops[n];
      var entry := TrailEntryFromHop(h, |trail| + 1, h.ok && TrimSpace(h.snippet) == "", env.timedOut);
      trail := trail + [entry];
    }
    p := p0.(hops := p0.hops + hops, trail := trail);
  }

  /** The budget nudge and the trail come before a request. */
  method Prepare(env: Env, s: Settings, rnd: nat, p: Progress, ghost t: Terms, ghost flag: bool) returns (run: Run)
    requires Ok(p.run, t, flag) && Clean(p.run, t.base)
    ensures Ok(run, t, flag) && Clean(run, t.base) && run == Run(Prepared(env, s, rnd, p), p.run.acts)
  {
    hide Ok, Disciplined, UpsertText, RenderTrailInject;
    run := p.run;
    StartsWithSystem(run, t, flag);
    if Budget(s) - rnd <= s.forceReturnRoundsLeft && rnd > 1 {
      DisciplinedOne(User(FORCE_RETURN));
      CleanAdd(run, [User(FORCE_RETURN)], t, flag);
      run := Reply1(run, User(FORCE_RETURN), t, flag);
    }
    if |p.trail| > 0 && s.trailOn {
      var snippet := RenderTrailInjectLoop(p.trail, s.trailMax, env.sprint);
      RenderedIsHeaded(p.trail, s.trailMax, env.sprint);
      TrailKeeps(run, snippet, t, flag);
      StartsWithSystem(run, t, flag);
      run := run.(messages := run.messages[0 := System(UpsertText(run.messages[0].text, snippet))]);
    }
  }

  lemma StartsWithSystem(r: Run, t: Terms, flag: bool)
    requires Ok(r, t, flag)
    ensures 1 <= t.base <= |r.messages| && r.messages[0].System?
  {
  }

  /** insightHop: one more request, without tools, on the answered calls. */
  method InsightHop(env: Env, s: Settings, ctx: MiddlewareContext, run0: Run, ghost t: Terms) returns (run: Run, answer: string)
    requires env.Valid() && Loyal(ctx) && Fits(t, env, ctx)
    requires Ok(run0, t, ctx.mustRefuse) && Clean(run0, t.base)
    modifies ctx
    ensures Loyal(ctx) && ctx.Value() == old(ctx.Value())
    ensures Ok(run, t, ctx.mustRefuse) && (run, answer) == Insight(env, s, run0, old(ctx.mustRefuse))
    ensures TrimSpace(answer) == answer
    ensures Rounds(run.acts) == Rounds(run0.acts) && Asks(run.acts) == Asks(run0.acts) + 1
    ensures Verbs(run.acts) == Verbs(run0.acts) && (Judged(run.acts) <==> Judged(run0.acts))
  {
    hide Ok, Disciplined, Rounds, Asks, Verbs, Judged, TrimSpace, Loyal, Alarming, Callable, Clean;
    DisciplinedOne(User(s.insightText));
    CleanAdd(run0, [User(s.insightText)], t, ctx.mustRefuse);
    run := Reply1(run0, User(s.insightText), t, ctx.mustRefuse);
    CleanAlike(run0.(messages := run0.messages + [User(s.insightText)]), run, t.base);
    var reply;
    run, reply := AskModel(env, ctx, run, true, t);
    BlankTrim();
    if reply.LlmFailed? { return run, ""; }
    answer := TrimSpace(reply.content);
    TrimTwice(reply.content);
    if answer != "" {
      run := Reply1(run, Assistant(Some(answer), []), t, ctx.mustRefuse);
    }
  }

  /** recentAssistantHas: among the last three messages. */
  method RecentlySaid(msgs: seq<Msg>, content: string) returns (found: bool)
    ensures found == RecentAssistantHas(msgs, content)
  {
    var start: nat := if |msgs| < 3 then 0 else |msgs| - 3;
    RecentFrom(msgs, content, start);
    hide RecentAssistantHas;
    for n := start to |msgs|
      invariant forall i :: start <= i < n ==> !HasContent(msgs[i], content)
    {
      var m := msgs[n];
      if m.Assistant? {
        if m.content == Some(content) || (m.content.None? && content == "") { return true; }
      } else if m.Prior? && AsString(m.fields, "role") == "assistant" && AsString(m.fields, "content") == content {
        return true;
      }
    }
    return false;
  }

  lemma RecentFrom(msgs: seq<Msg>, content: string, start: nat)
    requires start == if |msgs| < 3 then 0 else |msgs| - 3
    ensures RecentAssistantHas(msgs, content) <==> exists i :: start <= i < |msgs| && HasContent(msgs[i], content)
  {
    hide HasContent;
    var last := msgs[start..];
    assert last == if |msgs| > 3 then msgs[|msgs| - 3..] else msgs;
    forall i | start <= i < |msgs| ensures last[i - start] == msgs[i] && msgs[i] in last {}
    forall m | m in last ensures exists i :: start <= i < |msgs| && msgs[i] == m {
      var k :| 0 <= k < |last| && last[k] == m;
      assert msgs[start + k] == m;
    }
  }

  /** After tools ran and ended the turn. */
  method Terminated(env: Env, s: Settings, ctx: MiddlewareContext, p0: Progress, out: Outcome, ghost t: Terms)
    returns (p: Progress)
    requires env.Valid() && Loyal(ctx) && Fits(t, env, ctx)
    requires Ok(p0.run, t, ctx.mustRefuse) && Clean(p0.run, t.base) && TrailOk(env, p0)
    modifies ctx
    ensures Loyal(ctx) && Ok(p.run, t, ctx.mustRefuse) && TrailOk(env, p) && p.hops == p0.hops
    ensures ctx.Value() == old(ctx.Value()) && p == Terminates(env, s, p0, out, old(ctx.mustRefuse))
    ensures p.exit == if s.aiProcess then "insight" else "cheap_terminal"
    ensures Rounds(p.run.acts) == Rounds(p0.run.acts) && Verbs(p.run.acts) == Verbs(p0.run.acts)
    ensures Asks(p.run.acts) == Asks(p0.run.acts) + (if s.aiProcess then 1 else 0)
    ensures Judged(p.run.acts) <==> Judged(p0.run.acts)
  {
    hide Ok, Clean, Rounds, Asks, Verbs, Judged, TrimSpace, RecentAssistantHas, Loyal, Alarming, Callable, Benign;
    var terminal := TrimSpace(out.finalSummary);
    if s.aiProcess {
      var run, synth := InsightHop(env, s, ctx, p0.run, t);
      p := p0.(run := run, answer := if TrimSpace(synth) == "" then terminal else TrimSpace(synth), exit := "insight");
    } else {
      var run := p0.run;
      var said := RecentlySaid(run.messages, terminal);
      if terminal != "" && !said {
        run := Reply1(run, Assistant(Some(terminal), []), t, ctx.mustRefuse);
      }
      p := p0.(run := run, answer := terminal, exit := "cheap_terminal");
    }
  }

  /** Data without a second request: a thin answer, unless the data raised the flag. */
  method CheapFinal(env: Env, p0: Progress, out: Outcome, flag: bool, ghost t: Terms) returns (p: Progress)
    requires Ok(p0.run, t, flag) && TrailOk(env, p0)
    ensures Ok(p.run, t, flag) && TrailOk(env, p) && p.hops == p0.hops && p.run.acts == p0.run.acts
    ensures p == Thin(p0, out, flag)
    ensures p.exit == if flag then "hooks_refuse" else "cheap_final"
    ensures flag ==> p.answer == ""
  {
    hide Ok, TrimSpace, RecentAssistantHas, TrailOf;
    if flag { return p0.(answer := "", exit := "hooks_refuse"); }
    var answer := if TrimSpace(out.argSummary) == "" then CHEAP_FINAL else TrimSpace(out.argSummary);
    var run := p0.run;
    var said := RecentlySaid(run.messages, answer);
    if !said {
      run := Reply1(run, Assistant(Some(answer), []), t, flag);
    }
    p := p0.(run := run, answer := answer, exit := "cheap_final");
  }

  /** The acts that one round adds, by kind. */
  ghost predicate RoundCost(a: Run, b: Run, rounds: nat, asks: nat) {
    && Rounds(a.acts) <= Rounds(b.acts) <= Rounds(a.acts) + rounds
    && Asks(a.acts) <= Asks(b.acts) <= Asks(a.acts) + asks
    && Verbs(a.acts) <= Verbs(b.acts) <= Verbs(a.acts) + MAX_CALLS
    && (Judged(b.acts) <==> Judged(a.acts))
  }

  /** The rest of a round, once the reply asked for tools. */
  method ToolRound(env: Env, s: Settings, ctx: MiddlewareContext, p0: Progress, reply: LlmReply, calls: seq<ToolCall>,
                   ghost t: Terms)
    returns (p: Progress, stop: Stop)
    requires env.Valid() && Loyal(ctx) && Fits(t, env, ctx) && reply.Reply? && calls != []
    requires Ok(p0.run, t, ctx.mustRefuse) && Clean(p0.run, t.base) && TrailOk(env, p0) && p0.exit == ""
    modifies ctx
    ensures Loyal(ctx) && Ok(p.run, t, ctx.mustRefuse)
    ensures RoundCost(p0.run, p.run, 0, if s.aiProcess && stop == Leave then 1 else 0)
    ensures |p.hops| - |p0.hops| <= Verbs(p.run.acts) - Verbs(p0.run.acts)
    ensures stop.GoOn? ==> !ctx.mustRefuse && Clean(p.run, t.base) && p.exit == "" && p.returnArgs == p0.returnArgs
    ensures s.zeus && Unstopped(env) && AllNil(calls) && !old(ctx.mustRefuse) ==> stop.GoOn?
    ensures stop.Leave? ==> p.exit !in {"", "max_rounds"}
    ensures !stop.Abort? ==> TrailOk(env, p) && |p.hops| - |p0.hops| == Verbs(p.run.acts) - Verbs(p0.run.acts)
    ensures Scene(p, ctx.Value(), stop) == ToolsOf(env, s, Gate(ctx), p0, old(ctx.Value()), reply.content, calls)
  {
    hide Ok, Clean, Rounds, Asks, Verbs, Judged, TrimSpace, RecentAssistantHas, Loyal, TrailOk, Answers,
       Disciplined, Counted, First, Live, Alarming, Callable, Benign, Tooled, ToolsLeft, Trailed;
    var asst := Assistant(if TrimSpace(reply.content) == "" then None else Some(reply.content), calls);
    var run := Reply1(p0.run, asst, t, ctx.mustRefuse);
    p := p0.(run := run);
    TrailAlike(env, p0, p);
    if !s.zeus {
      p := p.(answer := "Zeus port not configured for tool calls", exit := "error");
      TrailAlike(env, p0, p);
      return p, Leave;
    }
    var out, err;
    run, out, err := ExecuteToolCalls(env, ctx, calls, run, t);
    if err {
      p := p.(run := run, hops := p.hops + out.hops);
      return p, Abort("");
    }
    ghost var answers := run.messages[|p0.run.messages| + 1..];
    assert run.messages == p0.run.messages + ([asst] + answers);
    DisciplinedRound(asst.content, calls, answers);
    CleanAdd(p0.run, [asst] + answers, t, old(ctx.mustRefuse));
    CleanAlike(p0.run.(messages := run.messages), run, t.base);
    p := ExtendTrail(env, p, out.hops);
    TrailAlike(env, p, p.(run := run));
    p, stop := LeaveTools(env, s, ctx, p.(run := run), out, t);
  }

  /** What follows once the calls are answered. */
  method LeaveTools(env: Env, s: Settings, ctx: MiddlewareContext, p0: Progress, out: Outcome, ghost t: Terms)
    returns (p: Progress, stop: Stop)
    requires env.Valid() && Loyal(ctx) && Fits(t, env, ctx) && Counted(out)
    requires Ok(p0.run, t, ctx.mustRefuse) && Clean(p0.run, t.base) && TrailOk(env, p0) && p0.exit == ""
    modifies ctx
    ensures Loyal(ctx) && ctx.Value() == old(ctx.Value()) && Ok(p.run, t, ctx.mustRefuse)
    ensures RoundCost(p0.run, p.run, 0, if s.aiProcess && stop == Leave then 1 else 0)
    ensures Verbs(p.run.acts) == Verbs(p0.run.acts) && p.hops == p0.hops && TrailOk(env, p) && !stop.Abort?
    ensures stop.GoOn? ==> !ctx.mustRefuse && Clean(p.run, t.base) && p.exit == "" && p.returnArgs == p0.returnArgs
    ensures out == NOTHING && !old(ctx.mustRefuse) ==> stop.GoOn?
    ensures stop.Leave? ==> p.exit !in {"", "max_rounds"}
    ensures Scene(p, ctx.Value(), stop) == ToolsLeft(env, s, p0, out, old(ctx.Value()))
  {
    hide Ok, Clean, Rounds, Asks, Verbs, Judged, TrimSpace, RecentAssistantHas, Loyal, TrailOk, Counted, Alarming, Callable,
      Benign, Terminates, Thin;
    ReturnShows(out);
    p := p0.(returnArgs := if out.returnArgs.Some? then out.returnArgs else p0.returnArgs);
    TrailAlike(env, p0, p);
    if out.returnSeen {
      p := Terminated(env, s, ctx, p, out, t);
      return p, Leave;
    }
    if !s.aiProcess && out.withPayload > 0 {
      p := CheapFinal(env, p, out, ctx.mustRefuse, t);
      return p, Leave;
    }
    if ctx.mustRefuse {
      ghost var q := p;
      p := p.(exit := "hooks_refuse");
      TrailAlike(env, q, p);
      return p, Leave;
    }
    return p, GoOn;
  }

  lemma ReturnShows(o: Outcome)
    requires Counted(o)
    ensures o.returnArgs.Some? ==> o.returnSeen
  {
  }

  lemma TrailAlike(env: Env, p: Progress, q: Progress)
    requires p.hops == q.hops && p.trail == q.trail
    ensures TrailOk(env, p) <==> TrailOk(env, q)
  {
  }

  lemma CleanAlike(a: Run, b: Run, base: nat)
    requires Clean(a, base) && a.messages == b.messages
    ensures Clean(b, base)
  {
  }

  /** The first half of a round: it begins, and asks the model. */
  method BeginRound(env: Env, s: Settings, ctx: MiddlewareContext, rnd: nat, p0: Progress, ghost t: Terms)
    returns (p: Progress, reply: LlmReply, stopped: bool)
    requires env.Valid() && Loyal(ctx) && Fits(t, env, ctx) && !ctx.mustRefuse
    requires Ok(p0.run, t, false) && Clean(p0.run, t.base)
    modifies ctx
    ensures Loyal(ctx) && Ok(p.run, t, ctx.mustRefuse) && Clean(p.run, t.base) && p == p0.(run := p.run)
    ensures RoundCost(p0.run, p.run, 1, 1) && Verbs(p.run.acts) == Verbs(p0.run.acts)
    ensures !stopped ==> Rounds(p.run.acts) == Rounds(p0.run.acts) + 1
    ensures stopped == env.stopped(p0.run.acts)
    ensures p.run == if stopped then p0.run.(acts := p0.run.acts + [Check(true, false)])
      else Run(Prepared(env, s, rnd, p0),
               p0.run.acts + [Check(false, false)] + [Round(rnd, false)] + [AskLlm(Prepared(env, s, rnd, p0), false, false)])
    ensures !stopped ==> reply == env.llm(p.run.acts)
    ensures ctx.Value() == if stopped || reply.LlmFailed? then old(ctx.Value())
      else FoldAll(old(ctx.Value()), ReplyParts(env.assess, Str(reply.content), RawArgs(reply.calls)))
    ensures !stopped && !ReplyAlarms(env, reply) ==> !ctx.mustRefuse
    ensures Unstopped(env) ==> !stopped
  {
    hide Ok, Clean, Rounds, Asks, Verbs, Judged, Loyal, Alarming, Callable, Benign, ReplyAlarms, FoldAll, UpsertText, RenderTrailInject;
    p := p0;
    stopped := env.stopped(p.run.acts);
    NoAlarm(env, p.run.acts + [Check(stopped, false)]);
    var run := Record(p.run, Check(stopped, ctx.mustRefuse), t, false);
    CleanAlike(p0.run, run, t.base);
    p := p.(run := run);
    if stopped { return p, LlmFailed(""), true; }
    NoAlarm(env, run.acts + [Round(rnd, false)]);
    run := Record(run, Round(rnd, ctx.mustRefuse), t, false);
    CleanAlike(p.run, run, t.base);
    p := p.(run := run);
    run := Prepare(env, s, rnd, p, t, false);
    var prepared := run;
    run, reply := AskModel(env, ctx, run, false, t);
    CleanAlike(prepared, run, t.base);
    p := p.(run := run);
  }

  /** One round of the loop; it only begins while nothing is refused. */
  method PlayRound(env: Env, s: Settings, ctx: MiddlewareContext, rnd: nat, p0: Progress, ghost t: Terms)
    returns (p: Progress, stop: Stop)
    requires env.Valid() && Loyal(ctx) && Fits(t, env, ctx) && !ctx.mustRefuse
    requires Ok(p0.run, t, false) && Clean(p0.run, t.base) && TrailOk(env, p0) && p0.exit == ""
    modifies ctx
    ensures Loyal(ctx) && Ok(p.run, t, ctx.mustRefuse)
    ensures RoundCost(p0.run, p.run, 1, if s.aiProcess && stop == Leave then 2 else 1)
    ensures |p.hops| - |p0.hops| <= Verbs(p.run.acts) - Verbs(p0.run.acts)
    ensures stop.GoOn? ==>
      && !ctx.mustRefuse && Clean(p.run, t.base) && p.exit == "" && p.returnArgs == p0.returnArgs
      && Rounds(p.run.acts) == Rounds(p0.run.acts) + 1
    ensures Idle(env, s) ==> stop.GoOn?
    ensures stop.Leave? ==> p.exit !in {"", "max_rounds"}
    ensures !stop.Abort? ==> TrailOk(env, p) && |p.hops| - |p0.hops| == Verbs(p.run.acts) - Verbs(p0.run.acts)
    ensures Scene(p, ctx.Value(), stop) == RoundOf(env, s, Gate(ctx), rnd, p0, old(ctx.Value()))
  {
    hide Ok, Clean, Rounds, Asks, Verbs, Judged, TrimSpace, Loyal, TrailOk, Alarming, Callable, Benign, ReplyAlarms, ToolsOf,
      Prepared, FoldAll;
    var reply, stopped;
    p, reply, stopped := BeginRound(env, s, ctx, rnd, p0, t);
    TrailAlike(env, p0, p);
    if stopped { return p, Abort(""); }
    if reply.LlmFailed? { return p, Abort("LLM error: " + reply.message); }
    var calls := reply.calls;
    if calls == [] {
      var envelope := env.envelope(reply.content);
      if envelope.Some? && s.zeus && "pipeline" in ctx.catalog && !ctx.mustRefuse {
        calls := [Call(env.mint(p.run.acts), "pipeline", Str(env.json(envelope.value)))];
      }
    }
    if calls == [] {
      var answer := if TrimSpace(reply.content) == "" then NO_CONTENT else TrimSpace(reply.content);
      var run := Reply1(p.run, Assistant(Some(answer), []), t, ctx.mustRefuse);
      p := p.(run := run, answer := answer, exit := "direct");
      TrailAlike(env, p0, p);
      return p, Leave;
    }
    p, stop := ToolRound(env, s, ctx, p, reply, calls, t);
  }

  // ---- the turn --------------------------------------------------------------------------------------

  /** The policy stage: it inspects the answer, and with the flag up it decides on a layer
      of its own if the model returned none. */
  method Conclude(env: Env, s: Settings, ctx: MiddlewareContext, p: Progress, ghost t: Terms) returns (r: TurnResult)
    requires env.Valid() && Loyal(ctx) && Ok(p.run, t, ctx.mustRefuse) && Fits(t, env, ctx)
    modifies ctx
    ensures exists flag :: Ok(r.run, t, flag)
    ensures r.run == p.run.(acts := p.run.acts + [Inspect(old(ctx.mustRefuse))])
    ensures r.hops == p.hops && r.trail == p.trail && r.exit == p.exit
    ensures r.preAnswer == env.preAnswer(p.answer, if p.returnArgs.Some? then Some(env.layerOf(p.returnArgs.value)) else None)
    ensures var refusing := old(ctx.mustRefuse) || env.assess(Str(r.preAnswer)).mustRefuse;
      && r.layer == (if p.returnArgs.Some? then Some(env.layerOf(p.returnArgs.value))
                     else if refusing then Some(P.HOOKS_LAYER) else None)
      && (refusing ==> Refused(s, r))
    ensures r.decision.Some? <==> r.layer.Some?
    ensures r.decision.None? ==> r.answer == P.Scrub(r.preAnswer, None)
    ensures r.status == StatusOf(p.exit, r.decision) && r.answer == P.PublicAnswer(r.preAnswer, r.decision, r.layer)
    ensures r == Settles(env, s, p, old(ctx.Value()))
  {
    hide Ok, Rounds, Asks, Verbs, Judged, FirstSeen, NoDup, Alarming, Callable, Benign, P.MapMessage, P.StickyOrFlags, P.FinalAnswer,
      P.ForcedText, P.Scrub, Fold;
    var layer := if p.returnArgs.Some? then Some(env.layerOf(p.returnArgs.value)) else None;
    var preAnswer := env.preAnswer(p.answer, layer);
    NoAlarm(env, p.run.acts + [Inspect(ctx.mustRefuse)]);
    var run := Record(p.run, Inspect(ctx.mustRefuse), t, ctx.mustRefuse);
    FoldHeeds(ctx.Value(), env.assess(Str(preAnswer)));
    ctx.FoldAssessment(env.assess(Str(preAnswer)));
    if ctx.mustRefuse && layer.None? {
      layer := Some(P.HOOKS_LAYER);
    }
    var decision := if layer.None? then None
      else Some(P.DecidePolicy(layer.value, s.policy, ctx.score, ctx.mustRefuse, s.jailbreakIds));
    if ctx.mustRefuse {
      P.ForcedAnswerIsIndependent(preAnswer, layer.value, s.policy, ctx.score, true, s.jailbreakIds);
    }
    r := TurnResult(StatusOf(p.exit, decision), P.PublicAnswer(preAnswer, decision, layer), run, p.hops, p.trail, p.exit,
                    preAnswer, layer, decision);
  }

  /** The hooks forced a refusal, and the answer is the forced one. */
  ghost predicate Refused(s: Settings, r: TurnResult) {
    && r.decision.Some? && r.decision.value.policy == "refuse" && r.decision.value.forced && r.layer.Some?
    && r.answer == P.ForcedText(s.policy, "refuse", r.layer.value)
  }

  /** What a whole turn may do to the outside world. */
  ghost predicate Behaved(s: Settings, t: Terms, acts: seq<Act>) {
    && Orderly(acts) && Growing(acts) && AllSent(t, acts) && AllAllowed(t, acts)
    && Heeded(t, acts) && Caused(t, acts)
    && Rounds(acts) <= Budget(s) && Asks(acts) <= Budget(s) + (if s.aiProcess then 1 else 0)
    && Verbs(acts) <= MAX_CALLS * Budget(s)
  }

  lemma OkBehaved(r: Run, s: Settings, t: Terms, flag: bool)
    requires Ok(r, t, flag)
    requires Rounds(r.acts) <= Budget(s) && Asks(r.acts) <= Budget(s) + (if s.aiProcess then 1 else 0)
    requires Verbs(r.acts) <= MAX_CALLS * Budget(s)
    ensures Behaved(s, t, r.acts)
    ensures Raised(r.acts) ==> flag
  {
    hide Orderly, Growing, AllSent, Rounds, Asks, Verbs, Behind, OneTrail, AllAllowed, Heeded, Warned, Caused, Alarmed;
    forall i | 0 <= i < |r.acts| && r.acts[i].refusing ensures flag {}
  }

  lemma OneCheck(s: Settings, t: Terms, stopped: bool)
    requires !t.alarm([Check(stopped, false)])
    ensures Behaved(s, t, [Check(stopped, false)])
    ensures !Raised([Check(stopped, false)]) && !Judged([Check(stopped, false)])
    ensures Asks([Check(stopped, false)]) == 0 && Verbs([Check(stopped, false)]) == 0
  {
    CountPush([], Check(stopped, false));
    assert [] + [Check(stopped, false)] == [Check(stopped, false)];
  }

  /** What a turn on this request is held to. */
  ghost function TermsOf(env: Env, req: Request): Terms {
    Terms(req.system, Base(req), name => Callable(req.deniedVerbs, req.catalog, name), env.ask.mustRefuse, acts => Alarming(env, acts),
          m => Benign(env, m))
  }

  /** The bag before the first round. */
  method Opening(req: Request, ghost t: Terms) returns (run: Run)
    requires t.system == req.system && t.base == Base(req)
    ensures Ok(run, t, false) && Clean(run, t.base) && run == Run(OpeningOf(req), [])
  {
    hide UpsertText, Disciplined;
    NothingToUpsert(req.system);
    var priors := seq(|req.priors|, i requires 0 <= i < |req.priors| => Prior(req.priors[i]));
    var messages := [System(req.system)] + priors + [User(req.message)];
    run := Run(messages, []);
    assert messages[Base(req)..] == [];
    NoMessages();
  }

  /** A fresh context after OnTurnStart. */
  method OpenHooks(env: Env, req: Request) returns (ctx: MiddlewareContext)
    requires env.Valid()
    ensures fresh(ctx) && Loyal(ctx) && ctx.catalog == req.catalog && ctx.deniedVerbs == req.deniedVerbs
    ensures ctx.mustRefuse == env.ask.mustRefuse && ctx.Value() == TurnStart(FRESH, env.ask)
  {
    hide FirstSeen;
    ctx := new MiddlewareContext(req.deniedVerbs, req.catalog);
    EventKeeps(ctx.Value(), Started(env.ask), [], {});
    StartHeeds(env.ask);
    ctx.OnTurnStart(env.ask);
  }

  lemma NoMessages()
    ensures Disciplined([])
  {
  }

  lemma {:induction false} NoMoreRounds(env: Env, s: Settings, l: Limits, n: nat, m: nat, p: Progress, h: State)
    requires n <= m && !RoundsOf(env, s, l, n, p, h).stop.GoOn?
    ensures RoundsOf(env, s, l, m, p, h) == RoundsOf(env, s, l, n, p, h)
  {
    hide RoundOf;
    if n < m { NoMoreRounds(env, s, l, n, m - 1, p, h); }
  }

  /** The loop over the rounds. */
  method PlayRounds(env: Env, s: Settings, ctx: MiddlewareContext, p0: Progress, ghost t: Terms)
    returns (p: Progress, stop: Stop)
    requires env.Valid() && Loyal(ctx) && Fits(t, env, ctx) && !ctx.mustRefuse
    requires Ok(p0.run, t, false) && Clean(p0.run, t.base) && TrailOk(env, p0) && p0.exit == "" && p0.hops == []
    requires Rounds(p0.run.acts) == 0 && Asks(p0.run.acts) == 0 && Verbs(p0.run.acts) == 0 && !Judged(p0.run.acts)
    modifies ctx
    ensures Loyal(ctx) && Ok(p.run, t, ctx.mustRefuse) && !Judged(p.run.acts)
    ensures Rounds(p.run.acts) <= Budget(s) && Asks(p.run.acts) <= Budget(s) + (if s.aiProcess then 1 else 0)
    ensures Verbs(p.run.acts) <= MAX_CALLS * Budget(s) && |p.hops| <= Verbs(p.run.acts)
    ensures !stop.Abort? ==> TrailOk(env, p) && |p.hops| == Verbs(p.run.acts)
    ensures stop.Leave? ==> p.exit !in {"", "max_rounds"}
    ensures stop.GoOn? ==>
      p.exit == "" && !ctx.mustRefuse && Rounds(p.run.acts) == Budget(s) && p.returnArgs == p0.returnArgs
    ensures Idle(env, s) ==> stop.GoOn?
    ensures Scene(p, ctx.Value(), stop) == RoundsOf(env, s, Gate(ctx), Budget(s), p0, old(ctx.Value()))
    ensures p0.answer == "" && p0.returnArgs.None? && stop.Leave? ==>
      EndFits(env, s, Gate(ctx), p.run.acts, p.exit, p.answer, p.returnArgs)
  {
    hide Ok, Clean, Rounds, Asks, Verbs, Judged, Loyal, TrailOk, Alarming, Callable, Benign, RoundOf, Unended;
    ghost var l, h := Gate(ctx), ctx.Value();
    if p0.answer == "" && p0.returnArgs.None? { NotEnded(ctx, p0); }
    var maxRounds := s.maxRounds;
    if s.aiProcess && maxRounds < 2 { maxRounds := 2; }
    p, stop := p0, GoOn;
    for rnd := 1 to maxRounds + 1
      invariant Loyal(ctx) && !ctx.mustRefuse
      invariant Ok(p.run, t, false) && Clean(p.run, t.base) && TrailOk(env, p) && p.exit == ""
      invariant Rounds(p.run.acts) == rnd - 1 && Asks(p.run.acts) <= rnd - 1 && Verbs(p.run.acts) <= MAX_CALLS * (rnd - 1)
      invariant |p.hops| == Verbs(p.run.acts) && !Judged(p.run.acts) && stop == GoOn && p.returnArgs == p0.returnArgs
      invariant Scene(p, ctx.Value(), GoOn) == RoundsOf(env, s, l, rnd - 1, p0, h)
    {
      p, stop := PlayRound(env, s, ctx, rnd, p, t);
      if stop != GoOn {
        NoMoreRounds(env, s, l, rnd, Budget(s), p0, h);
        break;
      }
    }
    if p0.answer == "" && p0.returnArgs.None? { RoundsEnd(env, s, l, Budget(s), p0, h); }
  }

  lemma NotEnded(ctx: MiddlewareContext, p: Progress)
    requires Loyal(ctx) && !ctx.mustRefuse && p.exit == "" && p.answer == "" && p.returnArgs.None?
    ensures Unended(p, ctx.Value())
  {
  }

  lemma NoTrailYet(env: Env, p: Progress)
    requires p.hops == [] && p.trail == []
    ensures TrailOk(env, p)
  {
  }

  /** The opening of a turn: messages, hooks, and the last check before the loop. */
  method BeginTurn(env: Env, req: Request, ghost t: Terms) returns (ctx: MiddlewareContext, p: Progress, stopped: bool)
    requires env.Valid() && t == TermsOf(env, req)
    ensures fresh(ctx) && Loyal(ctx) && ctx.mustRefuse == env.ask.mustRefuse && Fits(t, env, ctx)
    ensures Ok(p.run, t, ctx.mustRefuse) && Clean(p.run, t.base) && TrailOk(env, p)
    ensures p == Progress(p.run, [], [], "", if ctx.mustRefuse then "hooks_refuse" else "", None)
    ensures p.run == Run(OpeningOf(req), [Check(false, false), Check(stopped, ctx.mustRefuse)])
    ensures stopped == env.stopped([Check(false, false)])
    ensures Gate(ctx) == Limits(req.deniedVerbs, req.catalog) && ctx.Value() == TurnStart(FRESH, env.ask)
    ensures Rounds(p.run.acts) == 0 && Asks(p.run.acts) == 0 && Verbs(p.run.acts) == 0 && !Judged(p.run.acts)
    ensures Unstopped(env) ==> !stopped
  {
    hide Ok, Clean, Rounds, Asks, Verbs, Judged, Loyal, Alarming, Callable, Benign, TrailOk;
    var run := Opening(req, t);
    var start := run;
    assert [] + [Check(false, false)] == [Check(false, false)];
    NoAlarm(env, run.acts + [Check(false, false)]);
    run := Record(run, Check(false, false), t, false);
    CleanAlike(start, run, t.base);
    ctx := OpenHooks(env, req);
    FlagRises(run, t, false, ctx.mustRefuse);
    EmptyCounts(false);
    stopped := env.stopped(run.acts);
    NoAlarm(env, run.acts + [Check(stopped, ctx.mustRefuse)]);
    var before := run;
    run := Record(run, Check(stopped, ctx.mustRefuse), t, ctx.mustRefuse);
    CleanAlike(before, run, t.base);
    p := Progress(run, [], [], "", if ctx.mustRefuse then "hooks_refuse" else "", None);
    NoTrailYet(env, p);
  }

  /** The status is the exit's or the policy's. */
  predicate StatusFits(r: TurnResult) {
    && (r.status == TurnMaxRounds <==> r.exit == "max_rounds")
    && (r.exit != "max_rounds" ==>
          && (r.status == TurnRefused <==> Decided(r, "refuse")) && (r.status == TurnClarify <==> Decided(r, "clarify"))
          && (r.status == TurnError <==> Decided(r, "error")))
  }

  /** How a turn ends that ran out of rounds: refused by the hooks' own layer if its answer
      is an alarm, and with that answer otherwise. */
  ghost predicate RanOut(env: Env, s: Settings, r: TurnResult) {
    && r.status == TurnMaxRounds && r.preAnswer == env.preAnswer(OUT_OF_ROUNDS, None)
    && (if env.assess(Str(r.preAnswer)).mustRefuse then Refused(s, r) && r.layer == Some(P.HOOKS_LAYER)
        else r.decision.None? && r.answer == P.Scrub(r.preAnswer, None))
  }

  /** The policy stage, with what it means for the record of the turn. */
  method EndTurn(env: Env, s: Settings, ctx: MiddlewareContext, p: Progress, ghost t: Terms) returns (r: TurnResult)
    requires env.Valid() && Loyal(ctx) && Ok(p.run, t, ctx.mustRefuse) && Fits(t, env, ctx)
    requires Rounds(p.run.acts) <= Budget(s) && Asks(p.run.acts) <= Budget(s) + (if s.aiProcess then 1 else 0)
    requires Verbs(p.run.acts) <= MAX_CALLS * Budget(s)
    modifies ctx
    ensures Behaved(s, t, r.run.acts) && Judged(r.run.acts) && (Raised(r.run.acts) <==> old(ctx.mustRefuse))
    ensures Rounds(r.run.acts) == Rounds(p.run.acts) && Asks(r.run.acts) == Asks(p.run.acts) && Verbs(r.run.acts) == Verbs(p.run.acts)
    ensures r.hops == p.hops && r.trail == p.trail && r.exit == p.exit && StatusFits(r)
    ensures r.answer == P.PublicAnswer(r.preAnswer, r.decision, r.layer)
    ensures old(ctx.mustRefuse) || env.assess(Str(r.preAnswer)).mustRefuse ==> Refused(s, r)
    ensures p.exit == "max_rounds" && p.answer == OUT_OF_ROUNDS && p.returnArgs.None? && !old(ctx.mustRefuse) ==> RanOut(env, s, r)
    ensures r == Settles(env, s, p, old(ctx.Value()))
    ensures |r.run.acts| == |p.run.acts| + 1 && r.run.acts[..|p.run.acts|] == p.run.acts && r.run.acts[|p.run.acts|].Inspect?
    ensures r.preAnswer == env.preAnswer(p.answer, LayerOf(env, p.returnArgs))
  {
    hide Ok, Behaved, Rounds, Asks, Verbs, Judged, Raised, Loyal, Alarming, Callable, Benign, P.PublicAnswer, P.ForcedText, P.Scrub,
      Settles;
    r := Conclude(env, s, ctx, p, t);
    Concluded(p, r, s, t);
  }

  /** A turn that may begin: its rounds, unless the ask was refused, and the policy stage. */
  method PlayTurn(env: Env, s: Settings, ctx: MiddlewareContext, p0: Progress, ghost t: Terms) returns (r: TurnResult)
    requires env.Valid() && Loyal(ctx) && Fits(t, env, ctx) && Ok(p0.run, t, ctx.mustRefuse) && Clean(p0.run, t.base)
    requires p0 == Progress(p0.run, [], [], "", if ctx.mustRefuse then "hooks_refuse" else "", None) && TrailOk(env, p0)
    requires Rounds(p0.run.acts) == 0 && Asks(p0.run.acts) == 0 && Verbs(p0.run.acts) == 0 && !Judged(p0.run.acts)
    modifies ctx
    ensures r == Played(env, s, Gate(ctx), p0, old(ctx.Value()))
    ensures Behaved(s, t, r.run.acts)
    ensures Raised(r.run.acts) ==> r.status in {TurnRefused, TurnError}
    ensures Judged(r.run.acts) && (Raised(r.run.acts) || env.assess(Str(r.preAnswer)).mustRefuse) ==> Refused(s, r)
    ensures old(ctx.mustRefuse) ==> Asks(r.run.acts) == 0 && Verbs(r.run.acts) == 0 && r.status in {TurnRefused, TurnError}
    ensures !Judged(r.run.acts) ==> r.status == TurnError
    ensures Judged(r.run.acts) ==> StatusFits(r) && r.answer == P.PublicAnswer(r.preAnswer, r.decision, r.layer)
    ensures r.status == TurnMaxRounds ==>
      Judged(r.run.acts) && !Raised(r.run.acts) && Rounds(r.run.acts) == Budget(s) && RanOut(env, s, r)
    ensures |r.hops| <= Verbs(r.run.acts)
    ensures Judged(r.run.acts) ==> |r.hops| == Verbs(r.run.acts) && TrailOf(env, r.hops, r.trail)
    ensures Idle(env, s) && !old(ctx.mustRefuse) ==> r.status == TurnMaxRounds
    ensures Judged(r.run.acts) ==> EndTold(env, s, Gate(ctx), r)
    ensures Judged(r.run.acts) && r.exit == "direct" ==> SpeaksDirectly(env, r)
  {
    hide Ok, Clean, Behaved, Rounds, Asks, Verbs, Judged, Raised, TrimSpace, Loyal, Alarming, Callable, Benign, P.PublicAnswer,
      P.ForcedText, P.Scrub, TrailOf, RanOut, Fits, RoundsOf, Settles, EndTold, SpeaksDirectly, EndFits, LayerOf;
    var p := p0;
    if !ctx.mustRefuse {
      var stop;
      p, stop := PlayRounds(env, s, ctx, p, t);
      if stop.Abort? {
        OkBehaved(p.run, s, t, ctx.mustRefuse);
        return Failed(p.run, p.hops, p.trail, stop.message);
      }
      if p.exit == "" {
        p := p.(answer := OUT_OF_ROUNDS, exit := "max_rounds");
      }
    }
    OtherEnds(env, s, Gate(ctx), p.run.acts);
    r := EndTurn(env, s, ctx, p, t);
    EndOf(env, s, Gate(ctx), p, r);
  }

  /** RunAgentTurn.  Whatever the world answers: the acts stay within bounds and in order,
      and the flag goes up exactly with the first alarm; a raised flag ends the turn refused
      (or in an error that kept it from the policy stage); only an unraised turn that used
      up its rounds reports so, and one that is only ever asked for nothing does. */
  method RunAgentTurn(env: Env, s: Settings, req: Request) returns (r: TurnResult)
    requires env.Valid()
    ensures Behaved(s, TermsOf(env, req), r.run.acts)
    ensures Raised(r.run.acts) ==> r.status in {TurnRefused, TurnError}
    ensures Judged(r.run.acts) && (Raised(r.run.acts) || env.assess(Str(r.preAnswer)).mustRefuse) ==> Refused(s, r)
    ensures env.ask.mustRefuse ==> Asks(r.run.acts) == 0 && Verbs(r.run.acts) == 0 && r.status in {TurnRefused, TurnError}
    ensures !Judged(r.run.acts) ==> r.status == TurnError
    ensures Judged(r.run.acts) ==> StatusFits(r) && r.answer == P.PublicAnswer(r.preAnswer, r.decision, r.layer)
    ensures r.status == TurnMaxRounds ==>
      Judged(r.run.acts) && !Raised(r.run.acts) && Rounds(r.run.acts) == Budget(s) && RanOut(env, s, r)
    ensures |r.hops| <= Verbs(r.run.acts)
    ensures Judged(r.run.acts) ==> |r.hops| == Verbs(r.run.acts) && TrailOf(env, r.hops, r.trail)
    ensures Idle(env, s) && s.llm && TrimSpace(req.message) != "" && !env.ask.mustRefuse ==> r.status == TurnMaxRounds
    ensures OnlyPermitted(req, r.run.acts)
    ensures Judged(r.run.acts) ==> EndTold(env, s, Limits(req.deniedVerbs, req.catalog), r)
    ensures Judged(r.run.acts) && r.exit == "direct" ==> SpeaksDirectly(env, r)
    ensures r == TurnOf(env, s, req)
  {
    hide Ok, Clean, Behaved, Rounds, Asks, Verbs, Judged, Raised, TrimSpace, Loyal, Alarming, Callable, Benign, P.PublicAnswer,
      P.ForcedText, P.Scrub, TrailOf, RanOut, Fits, Played, TurnStart, OnlyPermitted,
      EndTold, SpeaksDirectly, EndFits, LayerOf;
    ghost var t := TermsOf(env, req);
    var stopped := env.stopped([]);
    NoAlarm(env, [Check(stopped, false)]);
    OneCheck(s, t, stopped);
    if stopped || TrimSpace(req.message) == "" || !s.llm {
      PermittedOnly(env, s, req, [Check(stopped, false)]);
      return Failed(Run([], [Check(stopped, false)]), [], [], "");
    }
    var ctx, p;
    ctx, p, stopped := BeginTurn(env, req, t);
    if stopped {
      OkBehaved(p.run, s, t, ctx.mustRefuse);
      PermittedOnly(env, s, req, p.run.acts);
      return Failed(p.run, [], [], "");
    }
    r := PlayTurn(env, s, ctx, p, t);
    PermittedOnly(env, s, req, r.run.acts);
  }

  /** Every verb that went out is one that the request permits. */
  ghost predicate OnlyPermitted(req: Request, acts: seq<Act>) {
    forall i :: 0 <= i < |acts| && acts[i].CallVerb? ==>
      && acts[i].name !in req.deniedVerbs && (req.catalog == {} || acts[i].name in req.catalog)
      && acts[i].name != "return" && acts[i].name != "return_result"
  }

  lemma PermittedOnly(env: Env, s: Settings, req: Request, acts: seq<Act>)
    requires Behaved(s, TermsOf(env, req), acts)
    ensures OnlyPermitted(req, acts)
  {
    hide Orderly, Growing, AllSent, Heeded, Caused, Rounds, Asks, Verbs;
  }

  /** The answer that goes into the policy stage is the one of its exit. */
  ghost predicate EndTold(env: Env, s: Settings, l: Limits, r: TurnResult) {
    exists said, full :: EndSaid(env, s, l, r, said, full)
  }

  ghost predicate EndSaid(env: Env, s: Settings, l: Limits, r: TurnResult, said: string, full: Option<Doc>) {
    && r.run.acts != [] && EndFits(env, s, l, r.run.acts[..|r.run.acts| - 1], r.exit, said, full)
    && r.preAnswer == env.preAnswer(said, if full.Some? then Some(env.layerOf(full.value)) else None)
  }

  /** The last thing that happened was a reply without calls, and the answer is its content. */
  ghost predicate SpeaksDirectly(env: Env, r: TurnResult) {
    var n := |r.run.acts| - 1;
    && n > 0 && r.run.acts[n].Inspect? && r.run.acts[n - 1].AskLlm? && !r.run.acts[n - 1].insight
    && var reply := env.llm(r.run.acts[..n]);
       && reply.Reply? && reply.calls == []
       && r.preAnswer == env.preAnswer(if TrimSpace(reply.content) == "" then "(model returned no content)"
                                       else TrimSpace(reply.content), None)
  }

  lemma EndOf(env: Env, s: Settings, l: Limits, p: Progress, r: TurnResult)
    requires EndFits(env, s, l, p.run.acts, p.exit, p.answer, p.returnArgs) && r.exit == p.exit
    requires |r.run.acts| == |p.run.acts| + 1 && r.run.acts[..|p.run.acts|] == p.run.acts && r.run.acts[|p.run.acts|].Inspect?
    requires r.preAnswer == env.preAnswer(p.answer, LayerOf(env, p.returnArgs))
    ensures EndTold(env, s, l, r)
    ensures r.exit == "direct" ==> SpeaksDirectly(env, r)
  {
    hide EndedByTools, EndedByData, TrimSpace;
    assert r.run.acts[..|r.run.acts| - 1] == p.run.acts;
    hide EndFits;
    assert EndSaid(env, s, l, r, p.answer, p.returnArgs);
    if r.exit == "direct" { DirectlySaid(env, s, l, p.run.acts, p.answer, p.returnArgs); }
  }

  lemma DirectlySaid(env: Env, s: Settings, l: Limits, acts: seq<Act>, said: string, full: Option<Doc>)
    requires EndFits(env, s, l, acts, "direct", said, full)
    ensures full.None? && acts != [] && acts[|acts| - 1].AskLlm? && !acts[|acts| - 1].insight
    ensures var reply := env.llm(acts);
      && reply.Reply? && reply.calls == []
      && said == if TrimSpace(reply.content) == "" then "(model returned no content)" else TrimSpace(reply.content)
  {
    hide EndedByTools, EndedByData, TrimSpace;
  }

  lemma EmptyCounts(stopped: bool)
    ensures var acts := [] + [Check(stopped, false)];
      Rounds(acts) == 0 && Asks(acts) == 0 && Verbs(acts) == 0 && !Judged(acts)
  {
    CountPush([], Check(stopped, false));
  }

  lemma Concluded(p: Progress, r: TurnResult, s: Settings, t: Terms)
    requires exists flag :: Ok(r.run, t, flag)
    requires |r.run.acts| == |p.run.acts| + 1 && r.run.acts[..|p.run.acts|] == p.run.acts && r.run.acts[|p.run.acts|].Inspect?
    requires Rounds(p.run.acts) <= Budget(s) && Asks(p.run.acts) <= Budget(s) + (if s.aiProcess then 1 else 0)
    requires Verbs(p.run.acts) <= MAX_CALLS * Budget(s)
    ensures Behaved(s, t, r.run.acts) && Judged(r.run.acts)
    ensures Rounds(r.run.acts) == Rounds(p.run.acts) && Asks(r.run.acts) == Asks(p.run.acts) && Verbs(r.run.acts) == Verbs(p.run.acts)
    ensures Raised(r.run.acts) <==> r.run.acts[|p.run.acts|].refusing
  {
    hide Ok, Rounds, Asks, Verbs, Judged, Raised, Behaved;
    var last := r.run.acts[|p.run.acts|];
    assert r.run.acts == p.run.acts + [last];
    CountPush(p.run.acts, last);
    var flag :| Ok(r.run, t, flag);
    OkBehaved(r.run, s, t, flag);
    LastSaysAll(r.run.acts, s, t);
  }

  lemma LastSaysAll(acts: seq<Act>, s: Settings, t: Terms)
    requires Behaved(s, t, acts) && acts != []
    ensures Raised(acts) <==> acts[|acts| - 1].refusing
  {
    hide Growing, AllSent, Rounds, Asks, Verbs, AllAllowed, Heeded, Caused;
  }

  // ---- a turn that runs out of rounds and is refused ---------------------------------------------

  const CALM := Assessment(0.0, false, [])
  const ALARM := Assessment(1.0, true, [])

  /** A model that asks for nothing, and hooks that take the text about the rounds for an
      alarm. */
  function IdleEnv(): Env {
    Env(_ => false, _ => Reply("", [NilCall]), _ => Cancelled, _ => "",
        CALM, v => if v == Str(OUT_OF_ROUNDS) then ALARM else CALM, _ => map[],
        _ => "", t => t, t => t, _ => None, _ => "", _ => false, _ => P.HOOKS_LAYER, (answer, _) => answer)
  }

  const REFUSING := P.Settings(map["message_jailbreak_soft" := "no"], map[])

  lemma IdleIsIdle(s: Settings)
    requires s.zeus
    ensures Idle(IdleEnv(), s) && IdleEnv().Valid()
  {
    var env := IdleEnv();
    assert env.assess(Str("")) == CALM && env.assess(Null) == CALM by { assert |""| != |OUT_OF_ROUNDS|; }
    forall acts ensures !ReplyAlarms(env, env.llm(acts)) {
      assert RawArgs([NilCall]) == [Null];
    }
  }

  lemma NoIsNo()
    ensures P.ForcedText(REFUSING, "refuse", P.HOOKS_LAYER) == "no"
  {
    hide Index, Contains;
    assert P.Chrome(REFUSING, "refuse") == "no";
    TooShort("no", P.TOKEN);
  }

  lemma TooShort(s: string, p: string)
    requires |s| < |p|
    ensures !Contains(s, p)
  {
    hide IndexFrom;
    assert Index(s, p) != -1 ==> OccursAt(s, p, Index(s, p));
  }

  lemma HiIsVisible()
    ensures TrimSpace("hi") != ""
  {
    TrimSpaceId("hi");
  }

  /** Its status speaks of the rounds, its policy and its answer of the refusal. */
  method RefusedOutOfRounds(rounds: nat) returns (r: TurnResult)
    ensures r.status == TurnMaxRounds && Decided(r, "refuse") && r.answer == "no"
  {
    hide TrimSpace, Behaved, P.ForcedText, Idle, P.Chrome;
    var s := Settings(rounds, false, 0, false, 0, true, true, "", REFUSING, {});
    IdleIsIdle(s);
    HiIsVisible();
    NoIsNo();
    r := RunAgentTurn(IdleEnv(), s, Request("hi", "", [], [], {}));
  }
}
