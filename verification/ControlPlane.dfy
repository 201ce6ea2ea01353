/** Bag B: the live brief merge (domain/catalog.go, application/catalog_brief.go) and the
    control-plane splice (application/control_plane_inject.go). */
module ControlPlane {
  import opened Text
  import opened Json
  import opened Contract

  const COMPANY_HEADING := "## Company context"
  const RULES_HEADING := "## Rules"
  const OUTPUT_REQUEST_HEADING := "## Output request"
  const SETTINGS_META_HEADING := "## Session settings"
  const TOOL_PATH_HEADING := "## Tool path policy"

  /** One sentence of tool-path policy: a visible line without a heading mark. */
  type PolicyLine = s: string |
    s != "" && '\n' !in s && '#' !in s && !IsSpace(s[0]) && !IsSpace(s[|s| - 1])
    witness "x"

  /** A field of the output request; one whose specification is not an object gets no line. */
  datatype OutputField = OutputField(name: string, typeName: string, description: string) | Unspecified(name: string)

  /** Inject settings.  The company text is what the word budget left of it; rules and
      output fields come sorted by name; `policy` is the sentence that the
      ignore-user-tool-path flag selects. */
  datatype InjectSettings = InjectSettings(
    companyContext: string,
    locale: string, language: string, timezone: string, channel: string, market: string,
    deploymentId: string, rulesetId: string,
    rules: seq<(string, string)>,
    outputFields: seq<OutputField>,
    policy: PolicyLine)

  function Join(parts: seq<string>, sep: string): string {
    if parts == [] then "" else if |parts| == 1 then parts[0] else parts[0] + sep + Join(parts[1..], sep)
  }

  function RenderCompanyContext(text: string): string {
    if TrimSpace(text) == "" then "" else COMPANY_HEADING + "\n\n" + TrimSpace(text)
  }

  function Bit(name: string, value: string): seq<string> {
    if value == "" then [] else [name + "=" + value]
  }

  function RenderSettingsMeta(s: InjectSettings): string {
    var bits := Bit("locale", s.locale) + Bit("language", s.language) + Bit("timezone", s.timezone)
      + Bit("channel", s.channel) + Bit("market", s.market) + Bit("deployment_id", s.deploymentId)
      + Bit("ruleset_id", s.rulesetId);
    if bits == [] then "" else SETTINGS_META_HEADING + "\n\n" + Join(bits, ", ")
  }

  const RULES_FOOTER := "On terminate, set business_rules_triggers as a sparse object "
    + "keyed by these rule ids (true if the rule applied this round; "
    + "omit or false otherwise."

  function RenderRulesBlock(rules: seq<(string, string)>): string {
    if rules == [] then ""
    else
      var lines := seq(|rules|, i requires 0 <= i < |rules| => "- (" + rules[i].0 + ") " + rules[i].1);
      Join([RULES_HEADING, ""] + lines + ["", RULES_FOOTER], "\n")
  }

  function FieldLines(fields: seq<OutputField>): seq<string> {
    if fields == [] then []
    else
      var rest := FieldLines(fields[1..]);
      match fields[0]
      case OutputField(name, typeName, description) =>
        ["- " + name + " (" + (if typeName == "" then "string" else typeName) + "): " + TrimSpace(description)] + rest
      case Unspecified(_) => rest
  }

  function RenderOutputRequestBlock(fields: seq<OutputField>): string {
    if fields == [] then ""
    else
      Join([OUTPUT_REQUEST_HEADING, "", "When you terminate, fill app_output with values only (no essays).",
            "Fields:"] + FieldLines(fields), "\n")
  }

  function Section(s: string): seq<string> {
    if s == "" then [] else [s]
  }

  function BuildInjectBlock(s: InjectSettings): string {
    Join(Section(RenderCompanyContext(s.companyContext)) + Section(RenderSettingsMeta(s))
         + Section(RenderRulesBlock(s.rules)) + Section(RenderOutputRequestBlock(s.outputFields)), "\n\n")
  }

  // ---- the rendering, line by line ----------------------------------------------------------------

  /** RenderSettingsMeta */
  method SettingsMeta(s: InjectSettings) returns (r: string)
    ensures r == RenderSettingsMeta(s)
  {
    hide Bit, Join;
    var bits := AddBit([], "locale", s.locale);
    bits := AddBit(bits, "language", s.language);
    bits := AddBit(bits, "timezone", s.timezone);
    bits := AddBit(bits, "channel", s.channel);
    bits := AddBit(bits, "market", s.market);
    bits := AddBit(bits, "deployment_id", s.deploymentId);
    bits := AddBit(bits, "ruleset_id", s.rulesetId);
    if |bits| == 0 { return ""; }
    r := "## Session settings" + "\n\n" + Join(bits, ", ");
  }

  method AddBit(bits: seq<string>, name: string, value: string) returns (r: seq<string>)
    ensures r == bits + Bit(name, value) && (bits == [] ==> r == Bit(name, value))
  {
    r := bits;
    if value != "" { r := r + [name + "=" + value]; }
  }

  /** RenderRulesBlock, on rules sorted by id. */
  method RulesBlock(rules: seq<(string, string)>) returns (r: string)
    ensures r == RenderRulesBlock(rules)
  {
    if |rules| == 0 { return ""; }
    var lines := ["## Rules", ""];
    ghost var all := seq(|rules|, i requires 0 <= i < |rules| => "- (" + rules[i].0 + ") " + rules[i].1);
    for n := 0 to |rules|
      invariant lines == ["## Rules", ""] + all[..n]
    {
      lines := lines + ["- (" + rules[n].0 + ") " + rules[n].1];
    }
    assert all[..|rules|] == all;
    lines := lines + ["", "On terminate, set business_rules_triggers as a sparse object "
      + "keyed by these rule ids (true if the rule applied this round; " + "omit or false otherwise."];
    assert lines == [RULES_HEADING, ""] + all + ["", RULES_FOOTER];
    r := Join(lines, "\n");
  }

  /** RenderOutputRequestBlock, on fields sorted by name. */
  method OutputRequestBlock(fields: seq<OutputField>) returns (r: string)
    ensures r == RenderOutputRequestBlock(fields)
  {
    hide TrimSpace;
    if |fields| == 0 { return ""; }
    var lines := ["## Output request", "", "When you terminate, fill app_output with values only (no essays).", "Fields:"];
    ghost var head := lines;
    assert fields[0..] == fields;
    for n := 0 to |fields|
      invariant lines + FieldLines(fields[n..]) == head + FieldLines(fields)
    {
      assert fields[n..][1..] == fields[n + 1..] && fields[n..][0] == fields[n];
      if fields[n].OutputField? {
        var typeName := fields[n].typeName;
        if typeName == "" { typeName := "string"; }
        ghost var before := lines;
        lines := lines + ["- " + fields[n].name + " (" + typeName + "): " + TrimSpace(fields[n].description)];
      }
    }
    assert fields[|fields|..] == [];
    assert lines == head + FieldLines(fields);
    r := Join(lines, "\n");
  }

  /** BuildInjectBlock */
  method InjectBlock(s: InjectSettings) returns (r: string)
    ensures r == BuildInjectBlock(s)
  {
    hide TrimSpace, Join, RenderSettingsMeta, RenderRulesBlock, RenderOutputRequestBlock, Section;
    var company := TrimSpace(s.companyContext);
    if company != "" { company := "## Company context" + "\n\n" + company; }
    var parts := AddSection([], company);
    var meta := SettingsMeta(s);
    parts := AddSection(parts, meta);
    var rules := RulesBlock(s.rules);
    parts := AddSection(parts, rules);
    var output := OutputRequestBlock(s.outputFields);
    parts := AddSection(parts, output);
    r := Join(parts, "\n\n");
  }

  method AddSection(parts: seq<string>, section: string) returns (r: seq<string>)
    ensures r == parts + Section(section) && (parts == [] ==> r == Section(section))
  {
    r := parts;
    if section != "" { r := r + [section]; }
  }

  function RenderToolPathPolicy(s: InjectSettings): string {
    TOOL_PATH_HEADING + "\n\n" + s.policy
  }

  /** strings.Split(s, "\n")[0] */
  function FirstLine(s: string): string {
    var i := Index(s, "\n");
    if i < 0 then s else s[..i]
  }

  function SpliceAfterBrief(text: string, block: string, heading: string): string {
    if text == "" || block == "" || !HasHeading(text) || Contains(text, heading) then text
    else TrimRight(text) + "\n\n" + TrimSpace(block) + "\n"
  }

  /** spliceChatReqInPlace: the message content is always written (a content that is no
      string becomes the empty string), the system prompt only when it has text. */
  method SpliceChatReqInPlace(chatReq: Doc, block: string, heading: string) returns (out: Doc)
    ensures out == SpliceChatReq(chatReq, block, heading)
  {
    out := chatReq;
    if TrimSpace(block) == "" { return; }
    if HasMsg0(out) {
      out := SetMsg0(out, SpliceAfterBrief(Msg0Text(out), block, heading));
    }
    var sp := InstrText(out);
    if sp != "" {
      out := SetInstr(out, SpliceAfterBrief(sp, block, heading));
    }
  }

  function SpliceChatReq(chatReq: Doc, block: string, heading: string): Doc {
    if TrimSpace(block) == "" then chatReq
    else Rewrite(chatReq, t => SpliceAfterBrief(t, block, heading), t => SpliceAfterBrief(t, block, heading))
  }

  predicate ChatReqHasHeading(doc: Doc, heading: string) {
    heading != "" && (Contains(Msg0Text(doc), heading) || Contains(InstrText(doc), heading))
  }

  predicate ChatReqHasBriefMarker(doc: Doc) {
    HasHeading(Msg0Text(doc)) || HasHeading(InstrText(doc))
  }

  predicate NeedsBlock(doc: Doc, block: string, heading: string) {
    TrimSpace(block) != "" && ChatReqHasBriefMarker(doc) && !ChatReqHasHeading(doc, heading)
  }

  predicate NeedsPolicy(doc: Doc, heading: string) {
    ChatReqHasBriefMarker(doc) && !ChatReqHasHeading(doc, heading)
  }

  /** The two splices of injectBagB; both needs are decided on the input. */
  function InjectTexts(doc: Doc, block: string, h: string, policy: string, p: string): Doc {
    var d := if NeedsBlock(doc, block, h) then SpliceChatReq(doc, block, h) else doc;
    if NeedsPolicy(doc, p) then SpliceChatReq(d, policy, p) else d
  }

  /** injectBagB */
  function InjectBagB(doc: Doc, s: InjectSettings): Doc {
    var block := BuildInjectBlock(s);
    InjectTexts(doc, block, FirstLine(block), RenderToolPathPolicy(s), TOOL_PATH_HEADING)
  }

  /** injectBagB, splice by splice. */
  method InjectBagBInPlace(chatReq: Doc, s: InjectSettings) returns (out: Doc)
    ensures out == InjectBagB(chatReq, s)
  {
    hide TrimSpace, BuildInjectBlock, SpliceChatReq, Index, HasHeading;
    var block := InjectBlock(s);
    var heading := if TrimSpace(block) != "" then FirstLine(block) else "";
    var msg0, instr := Msg0Text(chatReq), InstrText(chatReq);
    var hasBrief := HasHeading(msg0) || HasHeading(instr);
    var hasHeading := heading != "" && (Contains(msg0, heading) || Contains(instr, heading));
    var needBlock := TrimSpace(block) != "" && hasBrief && !hasHeading;
    var needPolicy := hasBrief && !Contains(msg0, "## Tool path policy") && !Contains(instr, "## Tool path policy");
    out := chatReq;
    if needBlock { out := SpliceChatReqInPlace(out, block, heading); }
    if needPolicy { out := SpliceChatReqInPlace(out, "## Tool path policy" + "\n\n" + s.policy, "## Tool path policy"); }
  }

  /** ExtractScopeBrief: the message before the instructions. */
  method CutScopeBrief(doc: Doc) returns (r: string)
    ensures r == ExtractScopeBrief(doc)
  {
    hide TrimSpace;
    var content := Msg0Text(doc);
    var idx := Index(content, "## SCOPE BRIEF");
    if idx >= 0 { return TrimSpace(content[idx..]); }
    if HasInstr(doc) {
      var sp := AsString(doc["instructions"].fields, "system_prompt");
      idx := Index(sp, "## SCOPE BRIEF");
      if idx >= 0 { return TrimSpace(sp[idx..]); }
    }
    EmptyHasNoHeading();
    return "";
  }

  /** ExtractScopeBrief */
  function ExtractScopeBrief(doc: Doc): string {
    var content := Msg0Text(doc);
    var sp := InstrText(doc);
    if Contains(content, BRIEF_HEADING) then TrimSpace(content[Index(content, BRIEF_HEADING)..])
    else if Contains(sp, BRIEF_HEADING) then TrimSpace(sp[Index(sp, BRIEF_HEADING)..])
    else ""
  }

  function MergeText(text: string, brief: string): string {
    if HasHeading(text) then text else TrimRight(text) + "\n\n" + TrimSpace(brief)
  }

  lemma EmptyHasNoHeading()
    ensures !HasHeading("")
  {
  }

  /** MergeScopeBrief on its clone. */
  method MergeScopeBriefInPlace(chatReq: Doc, brief: string) returns (out: Doc)
    ensures out == MergeScopeBrief(chatReq, brief)
  {
    hide HasHeading, TrimSpace, TrimRight;
    EmptyHasNoHeading();
    out := chatReq;
    if brief == "" { return; }
    if HasMsg0(out) {
      var current := Msg0Text(out);
      if !HasHeading(current) {
        out := SetMsg0(out, TrimRight(current) + "\n\n" + TrimSpace(brief));
      } else {
        SetMsg0Same(out);
      }
    }
    var sp := InstrText(out);
    if sp != "" {
      if !HasHeading(sp) {
        out := SetInstr(out, TrimRight(sp) + "\n\n" + TrimSpace(brief));
      } else {
        SetInstrSame(out);
      }
    }
  }

  function MergeScopeBrief(chatReq: Doc, brief: string): Doc {
    if brief == "" then chatReq
    else Rewrite(chatReq, t => MergeText(t, brief), t => MergeText(t, brief))
  }

  /** Candidate modes are fetched in turn; a failed fetch is None. */
  datatype Fetch = Failed | Live(doc: Doc)

  function FirstBrief(lives: seq<Fetch>): string {
    if lives == [] then ""
    else if lives[0].Live? && ExtractScopeBrief(lives[0].doc) != "" then ExtractScopeBrief(lives[0].doc)
    else FirstBrief(lives[1..])
  }

  /** EnsureScopeBrief: a catalog that has a brief keeps it, any other gets the first
      live one. */
  method EnsureScopeBriefLoop(chatReq: Doc, lives: seq<Fetch>) returns (body: Doc)
    ensures body == EnsureScopeBrief(chatReq, lives)
  {
    body := chatReq;
    if ExtractScopeBrief(chatReq) != "" { return; }
    for n := 0 to |lives|
      invariant body == chatReq
      invariant FirstBrief(lives) == FirstBrief(lives[n..])
    {
      assert lives[n..][1..] == lives[n + 1..];
      if lives[n].Live? {
        var brief := ExtractScopeBrief(lives[n].doc);
        if brief != "" {
          body := MergeScopeBriefInPlace(body, brief);
          return;
        }
      }
    }
  }

  function EnsureScopeBrief(chatReq: Doc, lives: seq<Fetch>): Doc {
    if ExtractScopeBrief(chatReq) != "" then chatReq else MergeScopeBrief(chatReq, FirstBrief(lives))
  }
}
