/** The policy table that runs after every terminate (domain/policy.go), and the answer
    that it lets through (application/agent_turn.go). */
module Policy {
  import opened Collections
  import opened Text

  /** The slice of a parsed return that policy reads; `queryOpen` and `openParts` say that
      one of the two required objects is empty. */
  datatype Layer = Layer(
    summary: string, action: string, triggers: map<string, bool>, jailBreakAttempt: real,
    queryOpen: bool, openParts: bool, errors: seq<string>)

  datatype Settings = Settings(messages: map<string, string>, sticky: map<string, bool>)

  datatype Decision = Decision(policy: string, uiText: string, flags: map<string, bool>, forced: bool, reason: string)

  const SOFT := "I can only help with questions about our product using store data. "
    + "I can't ignore those limits or invent offers that are not in our system."
  const FAILURE := "Sorry \U{2014} I can't complete that request. Could you rephrase what you need?"

  function Message(s: Settings, key: string, byDefault: string): string {
    if key in s.messages && s.messages[key] != "" then s.messages[key] else byDefault
  }

  /** StickyOrFlags over the keys of both maps, in any order. */
  method StickyOrFlagsLoop(prior: map<string, bool>, triggers: map<string, bool>) returns (out: map<string, bool>)
    ensures out == StickyOrFlags(prior, triggers)
  {
    out := map[];
    var todo := prior.Keys;
    while todo != {}
      invariant todo <= prior.Keys
      invariant out == map k | k in prior && k !in todo && prior[k] :: true
    {
      var k :| k in todo;
      todo := todo - {k};
      if prior[k] { out := out[k := true]; }
    }
    ghost var base := out;
    todo := triggers.Keys;
    while todo != {}
      invariant todo <= triggers.Keys
      invariant out == map k | k in prior.Keys + triggers.Keys && (k in base || (k in triggers && k !in todo && triggers[k])) :: true
    {
      var k :| k in todo;
      todo := todo - {k};
      if triggers[k] { out := out[k := true]; }
    }
  }

  function StickyOrFlags(prior: map<string, bool>, triggers: map<string, bool>): map<string, bool> {
    map k | k in prior.Keys + triggers.Keys && ((k in prior && prior[k]) || (k in triggers && triggers[k])) :: true
  }

  function MapMessage(policy: string, s: Settings, layer: Layer): string {
    if policy == "refuse" then
      if layer.summary != "" && layer.action == "refuse" then layer.summary else Message(s, "message_jailbreak_soft", SOFT)
    else if policy == "error" then Message(s, "message_failure", FAILURE)
    else if policy == "clarify" then
      if layer.summary != "" then layer.summary else Message(s, "message_clarify", layer.summary)
    else layer.summary
  }

  /** DecidePolicy; `jailbreakIds` are the rule ids that mark a jailbreak. */
  function DecidePolicy(layer: Layer, s: Settings, score: real, mustRefuse: bool, jailbreakIds: set<string>): Decision {
    var (policy, forced, reason) :=
      if mustRefuse then ("refuse", true, "hooks_must_refuse")
      else if layer.errors != [] then ("error", true, "layer_a_validation_failed")
      else if (exists k :: k in jailbreakIds && k in layer.triggers && layer.triggers[k])
              && (layer.jailBreakAttempt >= 0.5 || score >= 0.5)
      then ("refuse", true, "jailbreak_triggers_and_score")
      else if layer.action in {"answer", "clarify", "refuse", "error"} then (layer.action, false, "model_policy_action")
      else if layer.queryOpen || layer.openParts then ("clarify", false, "incomplete_layer_a")
      else ("answer", false, "default_answer");
    Decision(policy, MapMessage(policy, s, layer), StickyOrFlags(s.sticky, layer.triggers), forced, reason)
  }

  const TOKEN := "wish_i_knew"

  /** The answer of the policy stage. */
  function FinalAnswer(prePolicy: string, d: Decision, layer: Layer): string {
    var a :=
      if (d.forced && d.policy in {"refuse", "error"}) || TrimSpace(prePolicy) == "" then
        if d.uiText != "" then d.uiText else prePolicy
      else if d.policy == "clarify" && d.uiText != "" then d.uiText
      else prePolicy;
    if Contains(a, TOKEN) && layer.summary != "" then layer.summary else a
  }

  /** What finishTurn makes of any answer that names the token: the summary if there is one,
      and else what stands before the token. */
  function Scrub(a: string, layer: Option<Layer>): string {
    if !Contains(a, TOKEN) then a
    else if layer.Some? && layer.value.summary != "" then layer.value.summary
    else TrimSpace(a[..Index(a, TOKEN)])
  }

  /** The answer that leaves the turn. */
  function PublicAnswer(prePolicy: string, d: Option<Decision>, layer: Option<Layer>): string {
    Scrub(if d.Some? && layer.Some? then FinalAnswer(prePolicy, d.value, layer.value) else prePolicy, layer)
  }

  /** The token never leaves a turn, unless the model's own summary names it. */
  lemma {:induction false} TokenNeverShows(p: string, d: Option<Decision>, layer: Option<Layer>)
    ensures Contains(PublicAnswer(p, d, layer), "wish_i_knew") ==>
      layer.Some? && layer.value.summary != "" && PublicAnswer(p, d, layer) == layer.value.summary
  {
    hide FinalAnswer, Contains, Index, TrimSpace;
    var a := if d.Some? && layer.Some? then FinalAnswer(p, d.value, layer.value) else p;
    if Contains(a, TOKEN) { CutClean(a, TOKEN); }
  }

  lemma CutClean(a: string, token: string)
    requires token != "" && Contains(a, token)
    ensures !Contains(TrimSpace(a[..Index(a, token)]), token)
  {
    hide TrimSpace, Index;
    var i := Index(a, token);
    var k := TrimIsCut(a[..i]);
    forall j ensures !OccursAt(TrimSpace(a[..i]), token, j) {
      CutOccurs(a, a[..i], k, TrimSpace(a[..i]), token, j);
    }
  }

  lemma CutOccurs(a: string, x: string, k: nat, t: string, token: string, j: int)
    requires x <= a && k + |t| <= |x| && t == x[k..k + |t|]
    ensures OccursAt(t, token, j) ==> OccursAt(a, token, k + j) && k + j + |token| <= |x|
  {
    if OccursAt(t, token, j) {
      forall m: nat | m < |token| ensures a[k + j + m] == token[m] {
        CharOf(t, token, j, m);
        assert t[j + m] == x[k + (j + m)];
      }
      assert a[k + j..k + j + |token|] == token;
    }
  }

  /** The layer that stands in when the hooks refuse a turn without a return. */
  const HOOKS_LAYER := Layer("", "", map[], 0.0, true, true, ["hooks_must_refuse"])

  /** The configured or default text of a forced outcome. */
  function Chrome(s: Settings, policy: string): string {
    if policy == "refuse" then Message(s, "message_jailbreak_soft", SOFT) else Message(s, "message_failure", FAILURE)
  }

  /** The model's own summary goes out under a forced outcome exactly in these cases: it
      came with the action "refuse", or the configured text names the token. */
  predicate CarriesSummary(s: Settings, policy: string, layer: Layer) {
    layer.summary != "" && ((policy == "refuse" && layer.action == "refuse") || Contains(Chrome(s, policy), TOKEN))
  }

  /** The answer of a forced outcome. */
  function ForcedText(s: Settings, policy: string, layer: Layer): string {
    if CarriesSummary(s, policy, layer) then layer.summary
    else if Contains(Chrome(s, policy), TOKEN) then TrimSpace(Chrome(s, policy)[..Index(Chrome(s, policy), TOKEN)])
    else Chrome(s, policy)
  }

  /** Sticky flags over a conversation: a flag is up after a run of turns exactly when it
      was up before or some turn raised it. */
  function Conversation(prior: map<string, bool>, turns: seq<map<string, bool>>): map<string, bool>
    decreases |turns|
  {
    if turns == [] then prior else StickyOrFlags(Conversation(prior, turns[..|turns| - 1]), turns[|turns| - 1])
  }

  ghost predicate Up(flags: map<string, bool>, k: string) { k in flags && flags[k] }

  lemma {:induction false} FlagsNeverClear(prior: map<string, bool>, turns: seq<map<string, bool>>, k: string)
    ensures Up(Conversation(prior, turns), k) <==> Up(prior, k) || exists i :: 0 <= i < |turns| && Up(turns[i], k)
    decreases |turns|
  {
    if turns != [] {
      var n := |turns| - 1;
      FlagsNeverClear(prior, turns[..n], k);
      assert forall i :: 0 <= i < n ==> turns[..n][i] == turns[i];
      assert Up(Conversation(prior, turns), k) <==> Up(Conversation(prior, turns[..n]), k) || Up(turns[n], k);
    }
  }

  /** A forced refusal happens exactly when the hooks demand it, or a valid return carries
      a jailbreak trigger that a score backs; errors come before everything but hooks. */
  lemma ForcedRefusal(layer: Layer, s: Settings, score: real, mustRefuse: bool, ids: set<string>)
    ensures var d := DecidePolicy(layer, s, score, mustRefuse, ids);
      && (d.policy == "refuse" && d.forced <==>
            mustRefuse || (layer.errors == [] && (exists k :: k in ids && Up(layer.triggers, k))
                           && (layer.jailBreakAttempt >= 0.5 || score >= 0.5)))
      && (d.policy == "error" && d.forced <==> !mustRefuse && layer.errors != [])
      && (d.policy == "answer" ==> !mustRefuse && layer.errors == [])
  {
    hide MapMessage, StickyOrFlags;
    forall k ensures Up(layer.triggers, k) <==> k in layer.triggers && layer.triggers[k] {}
  }

  /** Without a forced outcome the model's own action decides, if it is one of the four; and
      else an open question is clarified, and everything else answered.  The reason names
      the row of the table. */
  lemma {:induction false} UnforcedPolicy(layer: Layer, s: Settings, score: real, mustRefuse: bool, ids: set<string>)
    ensures var d := DecidePolicy(layer, s, score, mustRefuse, ids);
      var named := layer.action == "answer" || layer.action == "clarify" || layer.action == "refuse" || layer.action == "error";
      && (d.forced ==> d.policy in {"refuse", "error"})
      && (!d.forced && named ==> d.policy == layer.action && d.reason == "model_policy_action")
      && (!d.forced && !named && (layer.queryOpen || layer.openParts) ==> d.policy == "clarify" && d.reason == "incomplete_layer_a")
      && (!d.forced && !named && !layer.queryOpen && !layer.openParts ==> d.policy == "answer" && d.reason == "default_answer")
      && (d.forced ==> d.reason == if mustRefuse then "hooks_must_refuse"
                                   else if layer.errors != [] then "layer_a_validation_failed" else "jailbreak_triggers_and_score")
      && d.flags == StickyOrFlags(s.sticky, layer.triggers)
  {
    hide MapMessage, StickyOrFlags;
  }

  /** What the user is asked back: the model's summary, or the configured question. */
  function Question(s: Settings, layer: Layer): string {
    if layer.summary == "" && "message_clarify" in s.messages then s.messages["message_clarify"] else layer.summary
  }

  /** Without a forced outcome a visible answer of the turn stands, except that a
      clarification asks its question instead; a blank one gives way to the text of the
      policy.  (The scrub comes on top.) */
  lemma {:induction false} UnforcedAnswer(p: string, layer: Layer, s: Settings, score: real, mustRefuse: bool, ids: set<string>)
    requires !DecidePolicy(layer, s, score, mustRefuse, ids).forced
    ensures var d := DecidePolicy(layer, s, score, mustRefuse, ids);
      var text := if d.policy == "clarify" then Question(s, layer)
                  else if d.policy == "answer" then layer.summary
                  else if d.policy == "error" then Chrome(s, "error")
                  else if layer.summary != "" then layer.summary else Chrome(s, "refuse");
      PublicAnswer(p, Some(d), Some(layer)) ==
        Scrub(if TrimSpace(p) == "" then (if text != "" then text else p)
              else if d.policy == "clarify" && text != "" then text
              else p, Some(layer))
  {
    var d := DecidePolicy(layer, s, score, mustRefuse, ids);
    UnforcedPolicy(layer, s, score, mustRefuse, ids);
    DecidedText(layer, s, score, mustRefuse, ids);
    hide TrimSpace, Contains, Index, StickyOrFlags, DecidePolicy;
  }

  lemma SoftIsSomething()
    ensures SOFT != "" && FAILURE != ""
  {
    assert |SOFT| > 0 && |FAILURE| > 0;
  }

  /** Under a forced refusal or error the answer that leaves the turn does not depend on
      the text the model answered with: it is the summary of the model's return in the
      cases of CarriesSummary, and the configured or default text, up to the token, in all
      others. */
  lemma {:induction false} ForcedAnswerIsIndependent(p: string, layer: Layer, s: Settings, score: real,
                                                     mustRefuse: bool, ids: set<string>)
    requires var d := DecidePolicy(layer, s, score, mustRefuse, ids); d.forced && d.policy in {"refuse", "error"}
    ensures var d := DecidePolicy(layer, s, score, mustRefuse, ids);
      PublicAnswer(p, Some(d), Some(layer)) == ForcedText(s, d.policy, layer)
  {
    var d := DecidePolicy(layer, s, score, mustRefuse, ids);
    hide TrimSpace, Contains, Index, StickyOrFlags, DecidePolicy;
    DecidedText(layer, s, score, mustRefuse, ids);
    SoftIsSomething();
  }

  lemma DecidedText(layer: Layer, s: Settings, score: real, mustRefuse: bool, ids: set<string>)
    ensures var d := DecidePolicy(layer, s, score, mustRefuse, ids); d.uiText == MapMessage(d.policy, s, layer)
  {
  }

  /** Returns that do not carry their summary get one and the same forced answer; one that
      does is told apart from them, unless its summary is that very text. */
  lemma {:induction false} ForcedTextDiffers(s: Settings, policy: string, a: Layer, b: Layer)
    requires !CarriesSummary(s, policy, b)
    ensures !CarriesSummary(s, policy, a) ==> ForcedText(s, policy, a) == ForcedText(s, policy, b)
    ensures CarriesSummary(s, policy, a) ==>
      (ForcedText(s, policy, a) == ForcedText(s, policy, b) <==> a.summary == ForcedText(s, policy, HOOKS_LAYER))
  {
    hide Contains, Index, TrimSpace;
  }

  /** With the hooks refusing, a return with the action "refuse" still speaks for itself. */
  lemma {:induction false} RefusalSpeaksSummary(p: string, secret: string, s: Settings, score: real, ids: set<string>)
    requires secret != ""
    ensures var layer := Layer(secret, "refuse", map[], 0.0, false, false, []);
      PublicAnswer(p, Some(DecidePolicy(layer, s, score, true, ids)), Some(layer)) == secret
  {
    hide Contains, Index, TrimSpace;
    ForcedAnswerIsIndependent(p, Layer(secret, "refuse", map[], 0.0, false, false, []), s, score, true, ids);
  }

  /** Remark: the forced answer is empty exactly when the configured text names the token with
      nothing visible before it, and no summary steps in. */
  lemma {:induction false} ForcedTextEmpty(s: Settings, policy: string, layer: Layer)
    ensures ForcedText(s, policy, layer) == "" <==>
      && !CarriesSummary(s, policy, layer) && Contains(Chrome(s, policy), TOKEN)
      && TrimSpace(Chrome(s, policy)[..Index(Chrome(s, policy), TOKEN)]) == ""
  {
    hide Contains, Index, TrimSpace;
    SoftIsSomething();
  }
}
