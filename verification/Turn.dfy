/** What an agent turn does, as a function of the world around it (application/agent_turn.go):
    the reference that the imperative turn refines. */
module Turn {
  import opened Collections
  import opened Text
  import opened Json
  import opened ToolTrail
  import opened Hooks
  import opened Bag
  import P = Policy

  const CHEAP_FINAL := "Zeus returned data. See structured results in the UI."
  const NO_CONTENT := "(model returned no content)"
  const OUT_OF_ROUNDS := "Ran out of tool rounds before the model produced a final answer."
  const FORCE_RETURN := "SYSTEM: Round budget nearly exhausted. Terminate now with the return tool (required four fields)."

  datatype LlmReply = LlmFailed(message: string) | Reply(content: string, calls: seq<ToolCall>)

  /** Cancelled covers a cancelled and an expired context. */
  datatype VerbReply =
    | Cancelled
    | VerbFailed(error: string)
    | Answer(ok: bool, status: int, error: string, url: string, reqId: string, body: Doc)

  /** The world around a turn.  Every answer may depend on all acts so far; the
      scoring, parsing and formatting functions are those of other packages. */
  datatype Env = Env(
    stopped: seq<Act> -> bool, llm: seq<Act> -> LlmReply, verb: seq<Act> -> VerbReply, mint: seq<Act> -> string,
    ask: Assessment, assess: Value -> Assessment, args: Value -> Doc,
    json: Doc -> string, truncate: string -> string, clip: string -> string,
    envelope: string -> Option<Doc>, sprint: Value -> string, timedOut: string -> bool,
    layerOf: Doc -> P.Layer, preAnswer: (string, Option<P.Layer>) -> string)
  {
    ghost predicate Valid() { Sound(ask) && forall v :: Sound(assess(v)) }
  }

  function RawArgs(calls: seq<ToolCall>): seq<Value> {
    seq(|calls|, i requires 0 <= i < |calls| => if calls[i].Call? then calls[i].raw else Null)
  }

  ghost predicate ReplyAlarms(env: Env, reply: LlmReply) {
    reply.Reply? && exists a :: a in ReplyParts(env.assess, Str(reply.content), RawArgs(reply.calls)) && a.mustRefuse
  }

  predicate VerbAlarms(env: Env, reply: VerbReply) {
    match reply
    case Cancelled => false
    case VerbFailed(_) => env.assess(Obj(map[])).mustRefuse
    case Answer(_, _, _, _, _, body) => env.assess(Obj(body)).mustRefuse
  }

  /** A verb that goes out is neither denied nor one of the client's own return names. */
  predicate Callable(deniedVerbs: seq<string>, catalog: set<string>, name: string) {
    name != "return" && name != "return_result" && !VerbDenied(deniedVerbs, catalog, name)
  }

  /** The text of a reply that reached the client. */
  function PlainText(env: Env, reply: VerbReply): string {
    match reply
    case Cancelled => ""
    case VerbFailed(error) => error
    case Answer(_, _, error, _, _, body) => if body == map[] then error else env.json(body)
  }

  /** The client's own tool messages. */
  function Notice(env: Env, error: string, verb: string): string {
    env.json(map["error" := Str(error), "verb" := Str(verb)])
  }

  datatype Settings = Settings(
    maxRounds: nat, aiProcess: bool, forceReturnRoundsLeft: int, trailOn: bool, trailMax: int,
    zeus: bool, llm: bool, insightText: string, policy: P.Settings, jailbreakIds: set<string>)

  /** The insight turn needs a second round. */
  function Budget(s: Settings): nat {
    if s.aiProcess && s.maxRounds < 2 then 2 else s.maxRounds
  }

  // ---- tool calls -----------------------------------------------------------------------------

  datatype Outcome = Outcome(
    hops: seq<Hop>, executed: nat, withData: nat, empty: nat, withPayload: nat,
    argSummary: string, returnArgs: Option<Doc>, returnSeen: bool, finalSummary: string)

  const NOTHING := Outcome([], 0, 0, 0, 0, "", None, false, "")

  ghost predicate Counted(o: Outcome) {
    && o.executed == |o.hops| && o.executed == o.withData + o.empty && o.withPayload <= o.withData
    && (o.returnArgs.Some? ==> o.returnSeen)
  }

  function Field(v: Doc, key: string): Option<Value> {
    if key in v then Some(v[key]) else None
  }

  function FirstField(v: Doc, keys: seq<string>): Option<Value>
    ensures FirstField(v, keys).Some? ==> exists k :: k in keys && k in v && v[k] == FirstField(v, keys).value
  {
    if keys == [] then None else if keys[0] in v then Some(v[keys[0]]) else FirstField(v, keys[1..])
  }

  /** isEmptyJSONValue: the first of the row keys that is present decides. */
  predicate IsEmptyJson(v: Value) {
    match v
    case Null => true
    case Str(s) => TrimSpace(s) == ""
    case Arr(items) => items == []
    case Obj(m) =>
      m == map[] ||
      var f := FirstField(m, ["rows", "items", "results", "entities", "data", "result"]);
      (f.Some? && (assert exists k :: k in m && m[k] == f.value; IsEmptyJson(f.value)))
    case _ => false
  }

  predicate IsText(v: Doc, key: string) { key in v && v[key].Str? }

  function TextOr(v: Doc, key: string, other: string): string {
    if IsText(v, key) && TrimSpace(v[key].s) != "" then TrimSpace(v[key].s) else other
  }

  function SummaryFromTerminal(body: Doc, args: Doc): string {
    TextOr(body, "summary", TextOr(body, "answer", TextOr(body, "message", TrimSpace(AsString(args, "summary")))))
  }

  /** The arguments of a pipeline call that ended the turn, filled up from its body. */
  function PipelineReturn(args: Doc, body: Doc): Doc {
    var filled := {"summary", "query_decomposition", "decomposition", "confidence", "policy_action"};
    args + map k | k in body && k !in args && k in filled :: body[k]
  }

  predicate IsReturn(cand: Doc) {
    && AsString(cand, "summary") != ""
    && "query_decomposition" in cand && cand["query_decomposition"].Obj?
    && "decomposition" in cand && cand["decomposition"].Obj? && IsText(cand, "confidence")
  }

  ghost predicate Matches(call: ToolCall, m: Msg) {
    call.Call? && m.Tool? && m.name == call.name && (call.id != "" ==> m.callId == call.id)
  }

  /** What a hop adds to the outcome of its round. */
  function AddHop(env: Env, out: Outcome, call: ToolCall, hop: VerbReply, body: Doc, text: string): (r: Outcome)
    requires call.Call? && hop.Answer?
    ensures |r.hops| == |out.hops| + 1
    ensures Counted(out) ==> Counted(r)
  {
    var empty := !hop.ok || IsEmptyJson(Obj(body)) || TrimSpace(text) == "";
    var payload := !empty && call.name != "describe" && call.name != "explain";
    var r := out.(hops := out.hops + [Hop(hop.reqId, call.name, hop.status, hop.ok, hop.error, hop.url, env.clip(text))],
                  executed := out.executed + 1,
                  withData := if empty then out.withData else out.withData + 1,
                  empty := if empty then out.empty + 1 else out.empty,
                  withPayload := if payload then out.withPayload + 1 else out.withPayload);
    if call.name == "pipeline" && Field(body, "turn_complete") == Some(Bool(true)) then
      var cand := PipelineReturn(env.args(call.raw), body);
      r.(returnSeen := true,
         finalSummary := if out.finalSummary == "" then SummaryFromTerminal(body, env.args(call.raw)) else out.finalSummary,
         returnArgs := if IsReturn(cand) then Some(cand) else out.returnArgs)
    else r
  }

  // ---- one round --------------------------------------------------------------------------------

  datatype Progress = Progress(run: Run, hops: seq<Hop>, trail: seq<Doc>, answer: string, exit: string, returnArgs: Option<Doc>)

  /** Abort ends the turn in an error. */
  datatype Stop = GoOn | Leave | Abort(message: string)

  /** The trail entry of a hop; only a blank snippet counts as empty here. */
  function EntryOf(env: Env, h: Hop, n: nat): Doc {
    TrailEntry(h, n, h.ok && TrimSpace(h.snippet) == "", env.timedOut)
  }

  /** One trail entry per hop, of that hop, numbered from 1. */
  ghost predicate TrailOf(env: Env, hops: seq<Hop>, trail: seq<Doc>) {
    |trail| == |hops| && forall i :: 0 <= i < |trail| ==> trail[i] == EntryOf(env, hops[i], i + 1)
  }

  ghost predicate TrailOk(env: Env, p: Progress) { TrailOf(env, p.hops, p.trail) }

  predicate RecentAssistantHas(msgs: seq<Msg>, content: string) {
    exists m :: m in (if |msgs| > 3 then msgs[|msgs| - 3..] else msgs) && HasContent(m, content)
  }

  predicate HasContent(m: Msg, content: string) {
    match m
    case Assistant(c, _) => content == if c.Some? then c.value else ""
    case Prior(f) => AsString(f, "role") == "assistant" && AsString(f, "content") == content
    case _ => false
  }

  // ---- the turn -----------------------------------------------------------------------------------

  datatype Status = TurnOk | TurnMaxRounds | TurnRefused | TurnClarify | TurnError

  datatype TurnResult = TurnResult(
    status: Status, answer: string, run: Run, hops: seq<Hop>, trail: seq<Doc>, exit: string,
    preAnswer: string, layer: Option<P.Layer>, decision: Option<P.Decision>)

  predicate Decided(r: TurnResult, policy: string) { r.decision.Some? && r.decision.value.policy == policy }

  /** Running out of rounds comes before the policy. */
  function StatusOf(exit: string, d: Option<P.Decision>): Status {
    if exit == "max_rounds" then TurnMaxRounds
    else if d.None? then TurnOk
    else if d.value.policy == "refuse" then TurnRefused
    else if d.value.policy == "clarify" then TurnClarify
    else if d.value.policy == "error" then TurnError
    else TurnOk
  }

  /** The verbs that a turn may not call, and those it may. */
  datatype Limits = Limits(denied: seq<string>, catalog: set<string>)

  datatype Request = Request(message: string, system: string, priors: seq<Doc>, deniedVerbs: seq<string>, catalog: set<string>)

  /** Where the messages of the turn itself start. */
  function Base(req: Request): nat { |req.priors| + 2 }

  lemma NothingCounted()
    ensures Counted(NOTHING)
  {
  }

  // ---- tool calls, one after the other ------------------------------------------------------------

  /** The calls of a round under way: everything done so far, the answers appended, the
      hooks' state, and what each call got from the server. */
  datatype Tools = Tools(acts: seq<Act>, msgs: seq<Msg>, out: Outcome, hooks: State, replies: seq<Option<VerbReply>>, err: bool)

  /** A request that failed counts as an answer without a body. */
  function Landed(reply: VerbReply): (hop: VerbReply)
    requires !reply.Cancelled?
    ensures hop.Answer?
  {
    if reply.VerbFailed? then Answer(false, 0, reply.error, "", "", map[]) else reply
  }

  function Sends(env: Env, call: ToolCall, callId: string, b: Tools): Tools
    requires call.Call?
  {
    var acts := b.acts + [CallVerb(call.name, false)];
    var reply := env.verb(acts);
    if reply.Cancelled? then b.(acts := acts, err := true)
    else
      var hop := Landed(reply);
      var h := AfterZeus(b.hooks, env.assess(Obj(hop.body)));
      var body := if h.override.Some? then map["error" := Str("untrusted_tool_payload")] else hop.body;
      var text := env.truncate(if h.override.Some? then h.override.value else PlainText(env, reply));
      Tools(acts, b.msgs + [Tool(callId, call.name, text)], AddHop(env, b.out, call, hop, body, text),
            h.(override := None), b.replies + [Some(reply)], false)
  }

  /** One call, after the check that comes before it. */
  function Called(env: Env, l: Limits, call: ToolCall, b: Tools): Tools
    requires call.Call?
  {
    var args := env.args(call.raw);
    var callId := if call.id == "" then env.mint(b.acts) else call.id;
    var c := b.(out := b.out.(argSummary := TextOr(args, "summary", b.out.argSummary)));
    if call.name == "return" || call.name == "return_result" then
      c.(msgs := c.msgs + [Tool(callId, call.name, env.json(args))],
         out := c.out.(finalSummary := AsString(args, "summary"), returnSeen := true, returnArgs := Some(args)),
         replies := c.replies + [None])
    else
      var d := c.(hooks := BeforeZeus(c.hooks, l.denied, l.catalog, call.name));
      if VerbDenied(l.denied, l.catalog, call.name) then
        d.(msgs := d.msgs + [Tool(callId, call.name, Notice(env, "verb_denied", call.name))], replies := d.replies + [None])
      else if d.hooks.mustRefuse then
        d.(msgs := d.msgs + [Tool(callId, call.name, Notice(env, "turn_refused", call.name))], replies := d.replies + [None])
      else Sends(env, call, callId, d)
  }

  function CallAll(env: Env, l: Limits, calls: seq<ToolCall>, b: Tools): Tools
    decreases |calls|
  {
    if calls == [] then b
    else
      var c := CallAll(env, l, calls[..|calls| - 1], b);
      if c.err then c
      else
        var stopped := env.stopped(c.acts);
        var d := c.(acts := c.acts + [Check(stopped, c.hooks.mustRefuse)]);
        if stopped then d.(err := true)
        else if calls[|calls| - 1].NilCall? then d.(replies := d.replies + [None])
        else Called(env, l, calls[|calls| - 1], d)
  }

  /** The first eight calls of a reply. */
  function Tooled(env: Env, l: Limits, calls: seq<ToolCall>, acts: seq<Act>, hooks: State): Tools {
    CallAll(env, l, First(calls), Tools(acts, [], NOTHING, hooks, [], false))
  }

  // ---- rounds ---------------------------------------------------------------------------------------

  /** Where a turn stands, with the hooks' state. */
  datatype Scene = Scene(p: Progress, hooks: State, stop: Stop)

  /** The messages of a request: near the end of the budget with the nudge, and with the
      trail on the system message. */
  function Prepared(env: Env, s: Settings, rnd: nat, p: Progress): seq<Msg> {
    var msgs := p.run.messages + if Budget(s) - rnd <= s.forceReturnRoundsLeft && rnd > 1 then [User(FORCE_RETURN)] else [];
    if |p.trail| > 0 && s.trailOn && |msgs| > 0 && msgs[0].System? then
      msgs[0 := System(UpsertText(msgs[0].text, RenderTrailInject(p.trail, s.trailMax, env.sprint)))]
    else msgs
  }

  /** The calls of a reply; without any, a pipeline envelope in its content counts as one. */
  function Wanted(env: Env, s: Settings, l: Limits, acts: seq<Act>, content: string, calls: seq<ToolCall>, refusing: bool)
    : seq<ToolCall>
  {
    if calls == [] && env.envelope(content).Some? && s.zeus && "pipeline" in l.catalog && !refusing
    then [Call(env.mint(acts), "pipeline", Str(env.json(env.envelope(content).value)))]
    else calls
  }

  function Spoken(content: string): string {
    if TrimSpace(content) == "" then NO_CONTENT else TrimSpace(content)
  }

  /** An assistant message, unless it is blank or was just said. */
  function Says(msgs: seq<Msg>, text: string): seq<Msg> {
    if text != "" && !RecentAssistantHas(msgs, text) then msgs + [Assistant(Some(text), [])] else msgs
  }

  /** The insight request, and its trimmed content. */
  function Insight(env: Env, s: Settings, run: Run, refusing: bool): (Run, string) {
    var msgs := run.messages + [User(s.insightText)];
    var acts := run.acts + [AskLlm(msgs, true, refusing)];
    match env.llm(acts)
    case LlmFailed(_) => (Run(msgs, acts), "")
    case Reply(content, _) =>
      var said := TrimSpace(content);
      (Run(if said == "" then msgs else msgs + [Assistant(Some(said), [])], acts), said)
  }

  /** The end of a round whose tools ended the turn. */
  function Terminates(env: Env, s: Settings, p: Progress, out: Outcome, refusing: bool): Progress {
    var terminal := TrimSpace(out.finalSummary);
    if s.aiProcess then
      var (run, said) := Insight(env, s, p.run, refusing);
      p.(run := run, answer := if said == "" then terminal else said, exit := "insight")
    else p.(run := p.run.(messages := Says(p.run.messages, terminal)), answer := terminal, exit := "cheap_terminal")
  }

  /** The end of a round whose tools brought data that nobody is asked to explain. */
  function Thin(p: Progress, out: Outcome, refusing: bool): Progress {
    if refusing then p.(answer := "", exit := "hooks_refuse")
    else
      var answer := if TrimSpace(out.argSummary) == "" then CHEAP_FINAL else TrimSpace(out.argSummary);
      p.(run := p.run.(messages := Says(p.run.messages, answer)), answer := answer, exit := "cheap_final")
  }

  /** The trail with the entries of more hops. */
  function Trailed(env: Env, trail: seq<Doc>, hops: seq<Hop>): seq<Doc> {
    trail + seq(|hops|, i requires 0 <= i < |hops| => EntryOf(env, hops[i], |trail| + i + 1))
  }

  /** How a round goes on once its calls are answered. */
  function ToolsLeft(env: Env, s: Settings, p: Progress, out: Outcome, hooks: State): Scene {
    var q := p.(returnArgs := if out.returnArgs.Some? then out.returnArgs else p.returnArgs);
    if out.returnSeen then Scene(Terminates(env, s, q, out, hooks.mustRefuse), hooks, Leave)
    else if !s.aiProcess && out.withPayload > 0 then Scene(Thin(q, out, hooks.mustRefuse), hooks, Leave)
    else if hooks.mustRefuse then Scene(q.(exit := "hooks_refuse"), hooks, Leave)
    else Scene(q, hooks, GoOn)
  }

  /** The rest of a round whose reply wants tools. */
  function ToolsOf(env: Env, s: Settings, l: Limits, p: Progress, hooks: State, content: string, calls: seq<ToolCall>): Scene {
    var asst := Assistant(if TrimSpace(content) == "" then None else Some(content), calls);
    var q := p.(run := p.run.(messages := p.run.messages + [asst]));
    if !s.zeus then Scene(q.(answer := "Zeus port not configured for tool calls", exit := "error"), hooks, Leave)
    else
      var t := Tooled(env, l, calls, q.run.acts, hooks);
      var r := q.(run := Run(q.run.messages + t.msgs, t.acts), hops := q.hops + t.out.hops);
      if t.err then Scene(r, t.hooks, Abort(""))
      else
        ToolsLeft(env, s, r.(trail := Trailed(env, p.trail, t.out.hops)), t.out, t.hooks)
  }

  function RoundOf(env: Env, s: Settings, l: Limits, rnd: nat, p: Progress, hooks: State): Scene {
    var stopped := env.stopped(p.run.acts);
    var begun := p.run.acts + [Check(stopped, hooks.mustRefuse)];
    if stopped then Scene(p.(run := p.run.(acts := begun)), hooks, Abort(""))
    else
      var msgs := Prepared(env, s, rnd, p);
      var acts := begun + [Round(rnd, hooks.mustRefuse)] + [AskLlm(msgs, false, hooks.mustRefuse)];
      var q := p.(run := Run(msgs, acts));
      match env.llm(acts)
      case LlmFailed(message) => Scene(q, hooks, Abort("LLM error: " + message))
      case Reply(content, said) =>
        var h := FoldAll(hooks, ReplyParts(env.assess, Str(content), RawArgs(said)));
        var calls := Wanted(env, s, l, acts, content, said, h.mustRefuse);
        if calls != [] then ToolsOf(env, s, l, q, h, content, calls)
        else
          Scene(q.(run := Run(msgs + [Assistant(Some(Spoken(content)), [])], acts), answer := Spoken(content), exit := "direct"),
                h, Leave)
  }

  function RoundsOf(env: Env, s: Settings, l: Limits, n: nat, p: Progress, hooks: State): Scene {
    if n == 0 then Scene(p, hooks, GoOn)
    else
      var c := RoundsOf(env, s, l, n - 1, p, hooks);
      if c.stop.GoOn? then RoundOf(env, s, l, n, c.p, c.hooks) else c
  }

  // ---- the whole turn -------------------------------------------------------------------------------

  function LayerOf(env: Env, args: Option<Doc>): Option<P.Layer> {
    if args.Some? then Some(env.layerOf(args.value)) else None
  }

  /** The policy stage. */
  function Settles(env: Env, s: Settings, p: Progress, hooks: State): TurnResult {
    var layer := LayerOf(env, p.returnArgs);
    var said := env.preAnswer(p.answer, layer);
    var h := Fold(hooks, env.assess(Str(said)));
    var judged := if h.mustRefuse && layer.None? then Some(P.HOOKS_LAYER) else layer;
    var decision := if judged.None? then None
      else Some(P.DecidePolicy(judged.value, s.policy, h.score, h.mustRefuse, s.jailbreakIds));
    TurnResult(StatusOf(p.exit, decision), P.PublicAnswer(said, decision, judged),
               p.run.(acts := p.run.acts + [Inspect(hooks.mustRefuse)]), p.hops, p.trail, p.exit, said, judged, decision)
  }

  function Failed(run: Run, hops: seq<Hop>, trail: seq<Doc>, answer: string): TurnResult {
    TurnResult(TurnError, P.Scrub(answer, None), run, hops, trail, "", "", None, None)
  }

  /** The messages that a turn begins with. */
  function OpeningOf(req: Request): seq<Msg> {
    [System(req.system)] + seq(|req.priors|, i requires 0 <= i < |req.priors| => Prior(req.priors[i])) + [User(req.message)]
  }

  /** The rounds of a turn that may begin, and its end. */
  function Played(env: Env, s: Settings, l: Limits, p: Progress, h: State): TurnResult {
    var c := if h.mustRefuse then Scene(p, h, GoOn) else RoundsOf(env, s, l, Budget(s), p, h);
    match c.stop
    case Abort(message) => Failed(c.p.run, c.p.hops, c.p.trail, message)
    case _ => Settles(env, s, if c.p.exit == "" then c.p.(answer := OUT_OF_ROUNDS, exit := "max_rounds") else c.p, c.hooks)
  }

  function TurnOf(env: Env, s: Settings, req: Request): TurnResult {
    var stopped := env.stopped([]);
    if stopped || TrimSpace(req.message) == "" || !s.llm then Failed(Run([], [Check(stopped, false)]), [], [], "")
    else
      var h := TurnStart(FRESH, env.ask);
      var late := env.stopped([Check(false, false)]);
      var run := Run(OpeningOf(req), [Check(false, false), Check(late, h.mustRefuse)]);
      if late then Failed(run, [], [], "")
      else
        var p := Progress(run, [], [], "", if h.mustRefuse then "hooks_refuse" else "", None);
        Played(env, s, Limits(req.deniedVerbs, req.catalog), p, h)
  }
}
