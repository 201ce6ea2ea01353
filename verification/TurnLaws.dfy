/** What the answer of an agent turn is (application/agent_turn.go), told by what the model
    and the server said last. */
module TurnLaws {
  import opened Collections
  import opened Text
  import opened Json
  import opened Hooks
  import opened Bag
  import opened Turn

  // ---- what the calls of a round leave ------------------------------------------------------------

  ghost predicate ReturnCall(c: ToolCall) { c.Call? && (c.name == "return" || c.name == "return_result") }

  /** A verb that the turn allows. */
  ghost predicate Permitted(l: Limits, name: string) {
    name !in l.denied && (l.catalog == {} || name in l.catalog)
  }

  ghost predicate Alarms(env: Env, r: Option<VerbReply>) { r.Some? && VerbAlarms(env, r.value) }

  ghost function BodyOf(r: Option<VerbReply>): Doc {
    if r.Some? && r.value.Answer? then r.value.body else map[]
  }

  /** A pipeline call whose answer says that the turn is complete. */
  ghost predicate Completes(env: Env, c: ToolCall, r: Option<VerbReply>) {
    && c.Call? && c.name == "pipeline" && r.Some? && !Alarms(env, r)
    && "turn_complete" in BodyOf(r) && BodyOf(r)["turn_complete"] == Bool(true)
  }

  /** The summary of a call that ends the turn. */
  ghost function SummaryOf(env: Env, c: ToolCall, r: Option<VerbReply>): string {
    if c.NilCall? then ""
    else if ReturnCall(c) then AsString(env.args(c.raw), "summary")
    else SummaryFromTerminal(BodyOf(r), env.args(c.raw))
  }

  ghost predicate Ends(env: Env, c: ToolCall, r: Option<VerbReply>) { ReturnCall(c) || Completes(env, c, r) }

  /** A call that ends the turn, with no return call behind it. */
  ghost predicate Counts(env: Env, calls: seq<ToolCall>, replies: seq<Option<VerbReply>>, i: nat)
    requires |replies| == |calls|
  {
    i < |calls| && Ends(env, calls[i], replies[i]) && forall j :: i < j < |calls| ==> !ReturnCall(calls[j])
  }

  /** The summary of a round is the first one that is not empty, from the last return call
      on. */
  ghost predicate SummaryFits(env: Env, calls: seq<ToolCall>, replies: seq<Option<VerbReply>>, t: string)
    requires |replies| == |calls|
  {
    if t == "" then forall i: nat :: Counts(env, calls, replies, i) ==> SummaryOf(env, calls[i], replies[i]) == ""
    else exists i: nat :: Counts(env, calls, replies, i) && SummaryOf(env, calls[i], replies[i]) == t
           && forall j: nat :: j < i && Counts(env, calls, replies, j) ==> SummaryOf(env, calls[j], replies[j]) == ""
  }

  /** The full arguments of a return: those of a return call, or those of a pipeline call
      filled up from an answer that completes the turn, if all four fields are there. */
  ghost function FullReturn(env: Env, c: ToolCall, r: Option<VerbReply>): Option<Doc> {
    if ReturnCall(c) then Some(env.args(c.raw))
    else if Completes(env, c, r) && IsReturn(PipelineReturn(env.args(c.raw), BodyOf(r)))
    then Some(PipelineReturn(env.args(c.raw), BodyOf(r)))
    else None
  }

  /** The last full return of a round. */
  ghost predicate ReturnFits(env: Env, calls: seq<ToolCall>, replies: seq<Option<VerbReply>>, o: Option<Doc>)
    requires |replies| == |calls|
  {
    if o.None? then forall i :: 0 <= i < |calls| ==> FullReturn(env, calls[i], replies[i]).None?
    else exists i :: 0 <= i < |calls| && FullReturn(env, calls[i], replies[i]) == o
           && forall j :: i < j < |calls| ==> FullReturn(env, calls[j], replies[j]).None?
  }

  /** A summary among the arguments of a call, trimmed. */
  ghost function Argued(env: Env, c: ToolCall): string {
    if c.Call? && "summary" in env.args(c.raw) && env.args(c.raw)["summary"].Str?
    then TrimSpace(env.args(c.raw)["summary"].s) else ""
  }

  /** The last summary argument of a round that shows. */
  ghost predicate ArgumentFits(env: Env, calls: seq<ToolCall>, t: string) {
    if t == "" then forall i :: 0 <= i < |calls| ==> Argued(env, calls[i]) == ""
    else exists i :: 0 <= i < |calls| && Argued(env, calls[i]) == t && forall j :: i < j < |calls| ==> Argued(env, calls[j]) == ""
  }

  /** A call that went out and got an answer. */
  ghost predicate Answered(c: ToolCall, reply: VerbReply, env: Env, before: seq<Act>, after: seq<Act>) {
    && c.Call? && !reply.Cancelled?
    && exists m: nat :: |before| < m <= |after| && after[m - 1] == CallVerb(c.name, false) && reply == env.verb(after[..m])
  }

  /** Exactly the permitted calls that are no return calls went out, as long as no alarm was
      raised, and what each of them got is what the server said after the acts so far. */
  ghost predicate RepliesFit(env: Env, l: Limits, calls: seq<ToolCall>, replies: seq<Option<VerbReply>>, before: seq<Act>,
                             after: seq<Act>, refusing: bool) {
    && |replies| == |calls| && before <= after
    && forall i :: 0 <= i < |calls| ==>
         && (replies[i].Some? <==>
               calls[i].Call? && !ReturnCall(calls[i]) && Permitted(l, calls[i].name) && !refusing && !SomeAlarm(env, replies[..i]))
         && (replies[i].Some? ==> Answered(calls[i], replies[i].value, env, before, after))
  }

  ghost predicate SomeAlarm(env: Env, replies: seq<Option<VerbReply>>) { exists r :: r in replies && Alarms(env, r) }

  ghost predicate SomeEnd(env: Env, calls: seq<ToolCall>, replies: seq<Option<VerbReply>>)
    requires |replies| == |calls|
  {
    exists i :: 0 <= i < |calls| && Ends(env, calls[i], replies[i])
  }

  /** What a reply shows of itself: one that raised an alarm shows a stand-in. */
  ghost function ShownBody(env: Env, r: VerbReply): Doc {
    if VerbAlarms(env, r) then map["error" := Str("untrusted_tool_payload")] else BodyOf(Some(r))
  }

  ghost function ShownText(env: Env, r: VerbReply): string {
    env.truncate(if VerbAlarms(env, r) then "{\"error\":\"untrusted_tool_payload\"}" else PlainText(env, r))
  }

  /** A call that brought data. */
  ghost predicate Brings(env: Env, c: ToolCall, r: Option<VerbReply>) {
    && c.Call? && c.name != "describe" && c.name != "explain" && r.Some? && r.value.Answer? && r.value.ok
    && !IsEmptyJson(Obj(ShownBody(env, r.value))) && TrimSpace(ShownText(env, r.value)) != ""
  }

  ghost predicate SomeData(env: Env, calls: seq<ToolCall>, replies: seq<Option<VerbReply>>)
    requires |replies| == |calls|
  {
    exists i :: 0 <= i < |calls| && Brings(env, calls[i], replies[i])
  }

  /** What holds of the calls of a round so far. */
  ghost predicate Told(env: Env, l: Limits, calls: seq<ToolCall>, acts: seq<Act>, h: State, c: Tools) {
    && Agree(c.hooks) && c.hooks.override.None? && Counted(c.out)
    && RepliesFit(env, l, calls, c.replies, acts, c.acts, h.mustRefuse)
    && (c.hooks.mustRefuse <==> h.mustRefuse || SomeAlarm(env, c.replies))
    && (c.out.returnSeen <==> SomeEnd(env, calls, c.replies))
    && (c.out.withPayload > 0 <==> SomeData(env, calls, c.replies))
    && SummaryFits(env, calls, c.replies, c.out.finalSummary)
    && ReturnFits(env, calls, c.replies, c.out.returnArgs)
    && ArgumentFits(env, calls, c.out.argSummary)
  }

  // ---- what the server's data says ------------------------------------------------------------------

  /** A text that shows, trimmed. */
  ghost function Visible(m: Doc, key: string): string {
    if key in m && m[key].Str? then TrimSpace(m[key].s) else ""
  }

  /** The summary of a finished pipeline is the first text that shows: the body's summary,
      its answer, its message, or the summary in the arguments. */
  lemma {:induction false} PipelineSummary(body: Doc, args: Doc)
    ensures SummaryFromTerminal(body, args) ==
      if Visible(body, "summary") != "" then Visible(body, "summary")
      else if Visible(body, "answer") != "" then Visible(body, "answer")
      else if Visible(body, "message") != "" then Visible(body, "message")
      else Visible(args, "summary")
  {
    hide TrimSpace;
    BlankTrim();
  }

  /** A field of a finished pipeline: the argument, or else what the body fills in. */
  ghost function Filled(args: Doc, body: Doc, key: string): Option<Value> {
    if key in args then Some(args[key]) else if key in body then Some(body[key]) else None
  }

  /** A finished pipeline counts as a full return exactly when each of the four required
      fields is there, in the arguments or filled up from the body. */
  lemma {:induction false} FourFields(args: Doc, body: Doc)
    ensures IsReturn(PipelineReturn(args, body)) <==>
      && (exists s :: s != "" && Filled(args, body, "summary") == Some(Str(s)))
      && (exists m :: Filled(args, body, "query_decomposition") == Some(Obj(m)))
      && (exists m :: Filled(args, body, "decomposition") == Some(Obj(m)))
      && (exists s :: Filled(args, body, "confidence") == Some(Str(s)))
    ensures forall k :: k in PipelineReturn(args, body) <==>
      k in args || (k in body && k in {"summary", "query_decomposition", "decomposition", "confidence", "policy_action"})
    ensures forall k :: k in PipelineReturn(args, body) ==> Some(PipelineReturn(args, body)[k]) == Filled(args, body, k)
  {
    var r := PipelineReturn(args, body);
    assert forall k :: k in {"summary", "query_decomposition", "decomposition", "confidence"} ==>
      (k in r <==> Filled(args, body, k).Some?) && (k in r ==> Filled(args, body, k) == Some(r[k]));
    hide PipelineReturn, Filled;
  }

  /** Which data counts as none: blanks, empty lists and objects, and an object whose first
      row key (in this order) holds none; numbers and truth values always count. */
  lemma {:induction false} NoData(m: Doc, s: string, items: seq<Value>, n: real, b: bool)
    ensures IsEmptyJson(Null) && (IsEmptyJson(Str(s)) <==> TrimSpace(s) == "") && (IsEmptyJson(Arr(items)) <==> items == [])
    ensures !IsEmptyJson(Num(n)) && !IsEmptyJson(Bool(b))
    ensures IsEmptyJson(Obj(m)) <==>
      || m == map[]
      || (if "rows" in m then IsEmptyJson(m["rows"])
          else if "items" in m then IsEmptyJson(m["items"])
          else if "results" in m then IsEmptyJson(m["results"])
          else if "entities" in m then IsEmptyJson(m["entities"])
          else if "data" in m then IsEmptyJson(m["data"])
          else "result" in m && IsEmptyJson(m["result"]))
  {
    hide TrimSpace;
    RowKeys(m);
    hide FirstField;
  }

  lemma RowKeys(m: Doc)
    ensures FirstField(m, ["rows", "items", "results", "entities", "data", "result"]) ==
      if "rows" in m then Some(m["rows"]) else if "items" in m then Some(m["items"]) else if "results" in m then Some(m["results"])
      else if "entities" in m then Some(m["entities"]) else if "data" in m then Some(m["data"]) else Field(m, "result")
  {
    var last := ["result"];
    var two, three := ["data", "result"], ["entities", "data", "result"];
    var four, five := ["results", "entities", "data", "result"], ["items", "results", "entities", "data", "result"];
    var six := ["rows", "items", "results", "entities", "data", "result"];
    assert last[1..] == [] && two[1..] == last && three[1..] == two && four[1..] == three && five[1..] == four && six[1..] == five;
    assert last[0] == "result" && two[0] == "data" && three[0] == "entities" && four[0] == "results";
    assert FirstField(m, []) == None;
    assert FirstField(m, last) == Field(m, "result");
    assert FirstField(m, two) == if "data" in m then Some(m["data"]) else FirstField(m, last);
    assert FirstField(m, three) == if "entities" in m then Some(m["entities"]) else FirstField(m, two);
    assert FirstField(m, four) == if "results" in m then Some(m["results"]) else FirstField(m, three);
    assert FirstField(m, five) == if "items" in m then Some(m["items"]) else FirstField(m, four);
    assert FirstField(m, six) == if "rows" in m then Some(m["rows"]) else FirstField(m, five);
  }

  // ---- one call more ------------------------------------------------------------------------------

  /** The summary of a round after one more call. */
  ghost function SummaryNext(env: Env, c: ToolCall, r: Option<VerbReply>, t: string): string {
    if ReturnCall(c) || (Completes(env, c, r) && t == "") then SummaryOf(env, c, r) else t
  }

  lemma SummaryPush(env: Env, calls: seq<ToolCall>, replies: seq<Option<VerbReply>>, t: string, c: ToolCall, r: Option<VerbReply>)
    requires |replies| == |calls| && SummaryFits(env, calls, replies, t)
    ensures SummaryFits(env, calls + [c], replies + [r], SummaryNext(env, c, r, t))
  {
    hide Completes, ReturnCall, SummaryOf;
    var n := |calls|;
    var all, got := calls + [c], replies + [r];
    assert all[n] == c && got[n] == r;
    forall i: nat | i < n ensures Counts(env, all, got, i) <==> Counts(env, calls, replies, i) && !ReturnCall(c) {
      assert all[i] == calls[i] && got[i] == replies[i];
      assert forall j :: i < j < n ==> all[j] == calls[j];
    }
    assert Counts(env, all, got, n) <==> Ends(env, c, r);
    assert forall i: nat :: i < n ==> all[i] == calls[i] && got[i] == replies[i];
    var next := SummaryNext(env, c, r, t);
    if next != "" {
      if ReturnCall(c) || t == "" {
        assert Counts(env, all, got, n) && SummaryOf(env, all[n], got[n]) == next;
      } else {
        var i: nat :| Counts(env, calls, replies, i) && SummaryOf(env, calls[i], replies[i]) == t
          && forall j: nat :: j < i && Counts(env, calls, replies, j) ==> SummaryOf(env, calls[j], replies[j]) == "";
        assert Counts(env, all, got, i) && SummaryOf(env, all[i], got[i]) == next;
      }
    }
  }

  lemma ReturnPush(env: Env, calls: seq<ToolCall>, replies: seq<Option<VerbReply>>, o: Option<Doc>, c: ToolCall, r: Option<VerbReply>)
    requires |replies| == |calls| && ReturnFits(env, calls, replies, o)
    ensures ReturnFits(env, calls + [c], replies + [r], if FullReturn(env, c, r).Some? then FullReturn(env, c, r) else o)
  {
    hide FullReturn;
    var all, got := calls + [c], replies + [r];
    assert all[|calls|] == c && got[|calls|] == r;
    assert forall i :: 0 <= i < |calls| ==> all[i] == calls[i] && got[i] == replies[i];
    if FullReturn(env, c, r).None? && o.Some? {
      var i :| 0 <= i < |calls| && FullReturn(env, calls[i], replies[i]) == o
        && forall j :: i < j < |calls| ==> FullReturn(env, calls[j], replies[j]).None?;
      assert FullReturn(env, all[i], got[i]) == o;
    }
  }

  lemma ArgumentPush(env: Env, calls: seq<ToolCall>, t: string, c: ToolCall)
    requires ArgumentFits(env, calls, t)
    ensures ArgumentFits(env, calls + [c], if Argued(env, c) != "" then Argued(env, c) else t)
  {
    hide Argued;
    var all := calls + [c];
    assert all[|calls|] == c && forall i :: 0 <= i < |calls| ==> all[i] == calls[i];
    if Argued(env, c) == "" && t != "" {
      var i :| 0 <= i < |calls| && Argued(env, calls[i]) == t && forall j :: i < j < |calls| ==> Argued(env, calls[j]) == "";
      assert Argued(env, all[i]) == t;
    }
  }

  lemma AnsweredLater(c: ToolCall, reply: VerbReply, env: Env, before: seq<Act>, after: seq<Act>, later: seq<Act>)
    requires Answered(c, reply, env, before, after) && after <= later
    ensures Answered(c, reply, env, before, later)
  {
    var m: nat :| |before| < m <= |after| && after[m - 1] == CallVerb(c.name, false) && reply == env.verb(after[..m]);
    assert later[..m] == after[..m];
  }

  lemma RepliesPush(env: Env, l: Limits, calls: seq<ToolCall>, replies: seq<Option<VerbReply>>, before: seq<Act>, after: seq<Act>,
                    refusing: bool, c: ToolCall, r: Option<VerbReply>, later: seq<Act>)
    requires RepliesFit(env, l, calls, replies, before, after, refusing) && after <= later
    requires r.Some? <==> c.Call? && !ReturnCall(c) && Permitted(l, c.name) && !refusing
                          && !SomeAlarm(env, replies)
    requires r.Some? ==> Answered(c, r.value, env, before, later)
    ensures RepliesFit(env, l, calls + [c], replies + [r], before, later, refusing)
  {
    hide Answered, Alarms, Permitted, ReturnCall, SomeAlarm;
    var all, got := calls + [c], replies + [r];
    assert got[..|calls|] == replies;
    assert forall i :: 0 <= i < |calls| ==> got[..i] == replies[..i];
    forall i | 0 <= i < |calls| && replies[i].Some? ensures Answered(calls[i], replies[i].value, env, before, later) {
      AnsweredLater(calls[i], replies[i].value, env, before, after, later);
    }
    assert all[|calls|] == c && got[|calls|] == r;
    assert forall i :: 0 <= i < |calls| ==> all[i] == calls[i] && got[i] == replies[i];
  }

  /** What one more call does to all of it. */
  lemma ToldPush(env: Env, l: Limits, calls: seq<ToolCall>, acts: seq<Act>, h: State, c: Tools, call: ToolCall,
                 r: Option<VerbReply>, d: Tools)
    requires Told(env, l, calls, acts, h, c) && c.acts <= d.acts && d.replies == c.replies + [r]
    requires Agree(d.hooks) && d.hooks.override.None? && Counted(d.out)
    requires r.Some? <==> call.Call? && !ReturnCall(call) && Permitted(l, call.name) && !c.hooks.mustRefuse
    requires r.Some? ==> Answered(call, r.value, env, acts, d.acts)
    requires d.hooks.mustRefuse <==> c.hooks.mustRefuse || Alarms(env, r)
    requires d.out.returnSeen <==> c.out.returnSeen || Ends(env, call, r)
    requires d.out.withPayload > 0 <==> c.out.withPayload > 0 || Brings(env, call, r)
    requires d.out.finalSummary == SummaryNext(env, call, r, c.out.finalSummary)
    requires d.out.returnArgs == if FullReturn(env, call, r).Some? then FullReturn(env, call, r) else c.out.returnArgs
    requires d.out.argSummary == if Argued(env, call) != "" then Argued(env, call) else c.out.argSummary
    ensures Told(env, l, calls + [call], acts, h, d)
  {
    SummaryPush(env, calls, c.replies, c.out.finalSummary, call, r);
    ReturnPush(env, calls, c.replies, c.out.returnArgs, call, r);
    ArgumentPush(env, calls, c.out.argSummary, call);
    RepliesPush(env, l, calls, c.replies, acts, c.acts, h.mustRefuse, call, r, d.acts);
    SomePush(env, calls, c.replies, call, r);
    hide Agree, Counted, RepliesFit, SummaryFits, ReturnFits, ArgumentFits, SummaryNext, FullReturn, Argued, Ends, Answered, Alarms,
      Permitted, ReturnCall, SomeAlarm, SomeEnd, SomeData, Brings;
  }

  lemma SomePush(env: Env, calls: seq<ToolCall>, replies: seq<Option<VerbReply>>, c: ToolCall, r: Option<VerbReply>)
    requires |replies| == |calls|
    ensures SomeAlarm(env, replies + [r]) <==> SomeAlarm(env, replies) || Alarms(env, r)
    ensures SomeEnd(env, calls + [c], replies + [r]) <==> SomeEnd(env, calls, replies) || Ends(env, c, r)
    ensures SomeData(env, calls + [c], replies + [r]) <==> SomeData(env, calls, replies) || Brings(env, c, r)
  {
    hide Alarms, Ends, Brings;
    var all, got := calls + [c], replies + [r];
    assert all[|calls|] == c && got[|calls|] == r;
    assert forall i :: 0 <= i < |calls| ==> all[i] == calls[i] && got[i] == replies[i];
  }

  lemma ToldFirst(env: Env, l: Limits, acts: seq<Act>, h: State)
    requires Agree(h) && h.override.None?
    ensures Told(env, l, [], acts, h, Tools(acts, [], NOTHING, h, [], false))
  {
    NoneFits(env);
    NothingCounted();
    hide Agree, SummaryFits, ReturnFits, ArgumentFits, SomeAlarm, SomeEnd, SomeData, Counted;
  }

  lemma NoneFits(env: Env)
    ensures SummaryFits(env, [], [], "") && ReturnFits(env, [], [], None) && ArgumentFits(env, [], "")
    ensures !SomeAlarm(env, []) && !SomeEnd(env, [], []) && !SomeData(env, [], [])
  {
  }

  lemma ToldFacts(env: Env, l: Limits, calls: seq<ToolCall>, acts: seq<Act>, h: State, c: Tools)
    requires Told(env, l, calls, acts, h, c)
    ensures Agree(c.hooks) && c.hooks.override.None? && Counted(c.out) && acts <= c.acts && |c.replies| == |calls|
  {
  }

  lemma AgreeWithout(h: State)
    requires Agree(h)
    ensures Agree(h.(override := None))
  {
    hide NoDup;
  }

  /** A call that goes out. */
  lemma SendTold(env: Env, l: Limits, calls: seq<ToolCall>, acts: seq<Act>, h: State, c: Tools, call: ToolCall)
    requires env.Valid() && call.Call? && !ReturnCall(call) && Told(env, l, calls, acts, h, c)
    requires !VerbDenied(l.denied, l.catalog, call.name) && !c.hooks.mustRefuse
    ensures var d := Called(env, l, call, c.(acts := c.acts + [Check(false, c.hooks.mustRefuse)]));
      !d.err ==> Told(env, l, calls + [call], acts, h, d)
  {
    hide Told, TrimSpace, Agree, IsEmptyJson, PipelineReturn, IsReturn, SummaryFromTerminal, FirstSeen;
    var b := c.(acts := c.acts + [Check(false, c.hooks.mustRefuse)]);
    var d := Called(env, l, call, b);
    ToldFacts(env, l, calls, acts, h, c);
    var sent := b.acts + [CallVerb(call.name, false)];
    var reply := env.verb(sent);
    if !reply.Cancelled? {
      var a := env.assess(Obj(Landed(reply).body));
      EventKeeps(c.hooks, Hooks.Answered(a), l.denied, l.catalog);
      FoldHeeds(c.hooks, a);
      AgreeWithout(AfterZeus(c.hooks, a));
      assert d.acts == sent && sent[|sent| - 1] == CallVerb(call.name, false) && sent[..|sent|] == sent;
      assert Answered(call, reply, env, acts, sent);
      ToldPush(env, l, calls, acts, h, c, call, Some(reply), d);
    }
  }

  lemma CallTold(env: Env, l: Limits, calls: seq<ToolCall>, acts: seq<Act>, h: State, c: Tools, call: ToolCall)
    requires env.Valid() && call.Call? && Told(env, l, calls, acts, h, c)
    ensures var d := Called(env, l, call, c.(acts := c.acts + [Check(false, c.hooks.mustRefuse)]));
      !d.err ==> Told(env, l, calls + [call], acts, h, d)
  {
    hide Told, TrimSpace;
    var b := c.(acts := c.acts + [Check(false, c.hooks.mustRefuse)]);
    var d := Called(env, l, call, b);
    ToldFacts(env, l, calls, acts, h, c);
    if ReturnCall(call) {
      ToldPush(env, l, calls, acts, h, c, call, None, d);
    } else {
      EventKeeps(c.hooks, Calling(call.name), l.denied, l.catalog);
      CallHeeds(c.hooks, l.denied, l.catalog, call.name);
      if VerbDenied(l.denied, l.catalog, call.name) || c.hooks.mustRefuse {
        ToldPush(env, l, calls, acts, h, c, call, None, d);
      } else if !d.err {
        SendTold(env, l, calls, acts, h, c, call);
      }
    }
  }

  lemma {:induction false} ToolsTell(env: Env, l: Limits, calls: seq<ToolCall>, acts: seq<Act>, h: State)
    requires env.Valid() && Agree(h) && h.override.None?
    ensures var c := CallAll(env, l, calls, Tools(acts, [], NOTHING, h, [], false));
      !c.err ==> Told(env, l, calls, acts, h, c)
    decreases |calls|
  {
    hide Called, Told, Agree;
    var b := Tools(acts, [], NOTHING, h, [], false);
    if calls == [] {
      ToldFirst(env, l, acts, h);
    } else {
      var n := |calls| - 1;
      ToolsTell(env, l, calls[..n], acts, h);
      var c := CallAll(env, l, calls[..n], b);
      if !CallAll(env, l, calls, b).err {
        var d := c.(acts := c.acts + [Check(false, c.hooks.mustRefuse)]);
        assert calls == calls[..n] + [calls[n]];
        if calls[n].NilCall? {
          ToldFacts(env, l, calls[..n], acts, h, c);
          ToldPush(env, l, calls[..n], acts, h, c, NilCall, None, d.(replies := d.replies + [None]));
        } else {
          CallTold(env, l, calls[..n], acts, h, c, calls[n]);
        }
      }
    }
  }

  // ---- how a turn ends ----------------------------------------------------------------------------

  /** The last request for the round was the one after these acts, and this came of it: the
      calls wanted, what each got, and the acts up to the last of them. */
  ghost predicate ToolsRan(env: Env, s: Settings, l: Limits, asked: seq<Act>, calls: seq<ToolCall>,
                           replies: seq<Option<VerbReply>>, acts: seq<Act>) {
    && asked != [] && asked[|asked| - 1].AskLlm? && !asked[|asked| - 1].insight
    && var reply := env.llm(asked);
       && reply.Reply?
       && calls == First(Wanted(env, s, l, asked, reply.content, reply.calls, ReplyAlarms(env, reply)))
       && RepliesFit(env, l, calls, replies, asked, acts, ReplyAlarms(env, reply))
  }

  /** A turn that its tools ended, by its summary and its full return. */
  ghost predicate EndedByTools(env: Env, s: Settings, l: Limits, acts: seq<Act>, summary: string, full: Option<Doc>) {
    exists asked, calls, replies ::
      && ToolsRan(env, s, l, asked, calls, replies, acts) && SomeEnd(env, calls, replies)
      && SummaryFits(env, calls, replies, summary) && ReturnFits(env, calls, replies, full)
  }

  /** A turn that stopped at its data, by its last argument. */
  ghost predicate EndedByData(env: Env, s: Settings, l: Limits, acts: seq<Act>, argument: string) {
    exists asked, calls, replies ::
      && ToolsRan(env, s, l, asked, calls, replies, acts) && !SomeEnd(env, calls, replies) && SomeData(env, calls, replies)
      && !ReplyAlarms(env, env.llm(asked)) && !SomeAlarm(env, replies)
      && ArgumentFits(env, calls, argument)
  }

  /** What the answer is, exit by exit: `acts` are those before the policy stage, `said` is
      the answer that goes into it, `full` the arguments of the return. */
  ghost predicate EndFits(env: Env, s: Settings, l: Limits, acts: seq<Act>, exit: string, said: string, full: Option<Doc>) {
    if exit == "direct" then
      && full.None? && acts != [] && acts[|acts| - 1].AskLlm? && !acts[|acts| - 1].insight
      && var reply := env.llm(acts);
         && reply.Reply? && reply.calls == []
         && said == if TrimSpace(reply.content) == "" then "(model returned no content)" else TrimSpace(reply.content)
    else if exit == "cheap_terminal" then
      !s.aiProcess && exists summary :: EndedByTools(env, s, l, acts, summary, full) && said == TrimSpace(summary)
    else if exit == "insight" then
      && s.aiProcess && acts != [] && acts[|acts| - 1].AskLlm? && acts[|acts| - 1].insight
      && var reply := env.llm(acts);
         var synth := if reply.Reply? then TrimSpace(reply.content) else "";
         exists summary :: EndedByTools(env, s, l, acts[..|acts| - 1], summary, full)
                           && said == if synth == "" then TrimSpace(summary) else synth
    else if exit == "cheap_final" then
      && !s.aiProcess && full.None?
      && exists argument :: EndedByData(env, s, l, acts, argument)
           && said == if TrimSpace(argument) == "" then "Zeus returned data. See structured results in the UI." else TrimSpace(argument)
    else
      full.None? && said == (if exit == "error" then "Zeus port not configured for tool calls"
                             else if exit == "max_rounds" then "Ran out of tool rounds before the model produced a final answer."
                             else "")
  }

  /** A turn between two rounds. */
  ghost predicate Unended(p: Progress, h: State) {
    && p.exit == "" && p.answer == "" && p.returnArgs.None? && Agree(h) && h.override.None? && !h.mustRefuse
  }

  lemma {:induction false} RoundsEnd(env: Env, s: Settings, l: Limits, n: nat, p: Progress, h: State)
    requires env.Valid() && Unended(p, h)
    ensures var c := RoundsOf(env, s, l, n, p, h);
      && (c.stop.GoOn? ==> Unended(c.p, c.hooks))
      && (c.stop.Leave? ==> EndFits(env, s, l, c.p.run.acts, c.p.exit, c.p.answer, c.p.returnArgs))
  {
    hide RoundOf, Unended, EndFits;
    if n > 0 {
      RoundsEnd(env, s, l, n - 1, p, h);
      var c := RoundsOf(env, s, l, n - 1, p, h);
      if c.stop.GoOn? { RoundEnds(env, s, l, n, c.p, c.hooks); }
    }
  }

  lemma ReplyHeeded(env: Env, h: State, reply: LlmReply)
    requires env.Valid() && Agree(h) && h.override.None? && !h.mustRefuse && reply.Reply?
    ensures var g := FoldAll(h, ReplyParts(env.assess, Str(reply.content), RawArgs(reply.calls)));
      Agree(g) && g.override.None? && (g.mustRefuse <==> ReplyAlarms(env, reply))
  {
    hide Agree, Sound, Fold, FoldAll;
    var parts := ReplyParts(env.assess, Str(reply.content), RawArgs(reply.calls));
    FoldAllHeeds(h, parts);
    FoldAllKeeps(h, parts);
    FoldAllLeaves(h, parts);
  }

  lemma DirectFits(env: Env, s: Settings, l: Limits, acts: seq<Act>, reply: LlmReply, refusing: bool)
    requires acts != [] && acts[|acts| - 1].AskLlm? && !acts[|acts| - 1].insight && reply == env.llm(acts) && reply.Reply?
    requires Wanted(env, s, l, acts, reply.content, reply.calls, refusing) == []
    ensures EndFits(env, s, l, acts, "direct", Spoken(reply.content), None)
  {
    hide TrimSpace, EndedByTools, EndedByData;
  }

  /** The tools of a round, told. */
  lemma RoundTold(env: Env, s: Settings, l: Limits, asked: seq<Act>, g: State, reply: LlmReply, calls: seq<ToolCall>)
    requires env.Valid() && Agree(g) && g.override.None? && reply == env.llm(asked) && reply.Reply?
    requires asked != [] && asked[|asked| - 1].AskLlm? && !asked[|asked| - 1].insight
    requires g.mustRefuse <==> ReplyAlarms(env, reply)
    requires calls == Wanted(env, s, l, asked, reply.content, reply.calls, g.mustRefuse)
    ensures var t := Tooled(env, l, calls, asked, g);
      !t.err ==>
        && Agree(t.hooks) && t.hooks.override.None? && Counted(t.out)
        && (t.hooks.mustRefuse <==> g.mustRefuse || SomeAlarm(env, t.replies))
        && ToolsRan(env, s, l, asked, First(calls), t.replies, t.acts) && |t.replies| == |First(calls)|
        && (t.out.returnSeen <==> SomeEnd(env, First(calls), t.replies))
        && (t.out.withPayload > 0 <==> SomeData(env, First(calls), t.replies))
        && SummaryFits(env, First(calls), t.replies, t.out.finalSummary)
        && ReturnFits(env, First(calls), t.replies, t.out.returnArgs)
        && ArgumentFits(env, First(calls), t.out.argSummary)
  {
    hide Agree, Counted, RepliesFit, SummaryFits, ReturnFits, ArgumentFits, SomeAlarm, SomeEnd, SomeData, Wanted, First, CallAll,
      ReplyAlarms;
    ToolsTell(env, l, First(calls), asked, g);
    var t := Tooled(env, l, calls, asked, g);
    if !t.err { ToldFacts(env, l, First(calls), asked, g, t); }
  }

  lemma ToolsEnd(env: Env, s: Settings, l: Limits, q: Progress, g: State, reply: LlmReply, calls: seq<ToolCall>)
    requires env.Valid() && Agree(g) && g.override.None? && reply == env.llm(q.run.acts) && reply.Reply?
    requires q.run.acts != [] && q.run.acts[|q.run.acts| - 1].AskLlm? && !q.run.acts[|q.run.acts| - 1].insight
    requires g.mustRefuse <==> ReplyAlarms(env, reply)
    requires calls == Wanted(env, s, l, q.run.acts, reply.content, reply.calls, g.mustRefuse)
    requires q.exit == "" && q.answer == "" && q.returnArgs.None?
    ensures var c := ToolsOf(env, s, l, q, g, reply.content, calls);
      && (c.stop.GoOn? ==> Unended(c.p, c.hooks))
      && (c.stop.Leave? ==> EndFits(env, s, l, c.p.run.acts, c.p.exit, c.p.answer, c.p.returnArgs))
  {
    hide Agree, SummaryFits, ReturnFits, ArgumentFits, SomeAlarm, SomeEnd, SomeData, Wanted, First, Tooled, ReplyAlarms, ToolsRan,
      TrimSpace, ToolsLeft, EndFits;
    RoundTold(env, s, l, q.run.acts, g, reply, calls);
    var t := Tooled(env, l, calls, q.run.acts, g);
    if !s.zeus {
      OtherEnds(env, s, l, q.run.acts);
    } else if !t.err {
      var asst := Assistant(if TrimSpace(reply.content) == "" then None else Some(reply.content), calls);
      var r := q.(run := Run(q.run.messages + [asst] + t.msgs, t.acts), hops := q.hops + t.out.hops,
                  trail := Trailed(env, q.trail, t.out.hops));
      LeftEnds(env, s, l, r, t, q.run.acts, First(calls));
    }
  }

  lemma OtherEnds(env: Env, s: Settings, l: Limits, acts: seq<Act>)
    ensures EndFits(env, s, l, acts, "error", "Zeus port not configured for tool calls", None)
    ensures EndFits(env, s, l, acts, "hooks_refuse", "", None)
    ensures EndFits(env, s, l, acts, "max_rounds", OUT_OF_ROUNDS, None)
  {
  }

  lemma LeftEnds(env: Env, s: Settings, l: Limits, r: Progress, t: Tools, asked: seq<Act>, calls: seq<ToolCall>)
    requires r.exit == "" && r.answer == "" && r.returnArgs.None? && r.run.acts == t.acts && Counted(t.out)
    requires ToolsRan(env, s, l, asked, calls, t.replies, t.acts) && Agree(t.hooks) && t.hooks.override.None?
    requires t.hooks.mustRefuse <==> ReplyAlarms(env, env.llm(asked)) || SomeAlarm(env, t.replies)
    requires |t.replies| == |calls| && (t.out.returnSeen <==> SomeEnd(env, calls, t.replies))
    requires t.out.withPayload > 0 <==> SomeData(env, calls, t.replies)
    requires SummaryFits(env, calls, t.replies, t.out.finalSummary) && ReturnFits(env, calls, t.replies, t.out.returnArgs)
    requires ArgumentFits(env, calls, t.out.argSummary)
    ensures var c := ToolsLeft(env, s, r, t.out, t.hooks);
      && (c.stop.GoOn? ==> Unended(c.p, c.hooks))
      && (c.stop.Leave? ==> EndFits(env, s, l, c.p.run.acts, c.p.exit, c.p.answer, c.p.returnArgs))
  {
    hide Agree, SummaryFits, ReturnFits, ArgumentFits, SomeAlarm, SomeEnd, SomeData, ReplyAlarms, ToolsRan, TrimSpace, Says;
    if t.out.returnSeen {
      assert EndedByTools(env, s, l, t.acts, t.out.finalSummary, t.out.returnArgs);
      if s.aiProcess {
        var (run, said) := Insight(env, s, r.run, t.hooks.mustRefuse);
        assert run.acts[..|run.acts| - 1] == t.acts;
      }
    } else if !s.aiProcess && t.out.withPayload > 0 && !t.hooks.mustRefuse {
      assert EndedByData(env, s, l, t.acts, t.out.argSummary);
    }
  }

  lemma RoundEnds(env: Env, s: Settings, l: Limits, rnd: nat, p: Progress, h: State)
    requires env.Valid() && Unended(p, h)
    ensures var c := RoundOf(env, s, l, rnd, p, h);
      && (c.stop.GoOn? ==> Unended(c.p, c.hooks))
      && (c.stop.Leave? ==> EndFits(env, s, l, c.p.run.acts, c.p.exit, c.p.answer, c.p.returnArgs))
  {
    hide EndFits, ToolsOf, Prepared, FoldAll, ReplyParts, Wanted, TrimSpace;
    var msgs := Prepared(env, s, rnd, p);
    var acts := p.run.acts + [Check(false, h.mustRefuse)] + [Round(rnd, h.mustRefuse)] + [AskLlm(msgs, false, h.mustRefuse)];
    var reply := env.llm(acts);
    if !env.stopped(p.run.acts) && reply.Reply? {
      var g := FoldAll(h, ReplyParts(env.assess, Str(reply.content), RawArgs(reply.calls)));
      ReplyHeeded(env, h, reply);
      var calls := Wanted(env, s, l, acts, reply.content, reply.calls, g.mustRefuse);
      var q := p.(run := Run(msgs, acts));
      if calls == [] {
        DirectFits(env, s, l, acts, reply, g.mustRefuse);
      } else {
        ToolsEnd(env, s, l, q, g, reply, calls);
      }
    }
  }
}
