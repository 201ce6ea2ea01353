/** The Bag B splice: exactly when it leaves the digested tree alone, and that a second
    pass returns its input. */
module BagB {
  import opened Text
  import opened Json
  import opened Contract
  import opened ControlPlane
  import opened DigestView

  /** A heading line that is none of the two marker headings. */
  predicate OwnLine(h: string) {
    && |h| > 4 && '\n' !in h && h[0] == '#' && h[1] == '#' && h[2] == ' ' && !IsSpace(h[|h| - 1])
    && (h[3], h[4]) != ('S', 'C') && (h[3], h[4]) != ('M', 'I')
  }

  lemma HeadingsAreOwn()
    ensures OwnLine(COMPANY_HEADING) && OwnLine(RULES_HEADING) && OwnLine(OUTPUT_REQUEST_HEADING)
    ensures OwnLine(SETTINGS_META_HEADING) && OwnLine(TOOL_PATH_HEADING)
  {
  }

  /** A block that opens with a heading line of its own. */
  predicate Opens(block: string, h: string) {
    OwnLine(h) && HasPrefix(block, h + "\n")
  }

  lemma JoinOpens(parts: seq<string>, sep: string)
    requires parts != []
    ensures HasPrefix(Join(parts, sep), parts[0])
    ensures |parts| > 1 ==> HasPrefix(Join(parts, sep), parts[0] + sep)
  {
  }

  lemma RulesOpen(rules: seq<(string, string)>)
    requires rules != []
    ensures Opens(RenderRulesBlock(rules), RULES_HEADING)
  {
    hide Index, TrimRight;
    HeadingsAreOwn();
    var lines := seq(|rules|, i requires 0 <= i < |rules| => "- (" + rules[i].0 + ") " + rules[i].1);
    JoinOpens([RULES_HEADING, ""] + lines + ["", RULES_FOOTER], "\n");
  }

  lemma OutputOpens(fields: seq<OutputField>)
    requires fields != []
    ensures Opens(RenderOutputRequestBlock(fields), OUTPUT_REQUEST_HEADING)
  {
    hide Index, TrimRight;
    HeadingsAreOwn();
    JoinOpens([OUTPUT_REQUEST_HEADING, "", "When you terminate, fill app_output with values only (no essays).",
               "Fields:"] + FieldLines(fields), "\n");
  }

  lemma CompanyOpens(text: string)
    requires RenderCompanyContext(text) != ""
    ensures Opens(RenderCompanyContext(text), COMPANY_HEADING)
  {
    hide Index, TrimRight;
    HeadingsAreOwn();
    assert COMPANY_HEADING + "\n\n" == COMPANY_HEADING + "\n" + "\n";
  }

  lemma MetaOpens(s: InjectSettings)
    requires RenderSettingsMeta(s) != ""
    ensures Opens(RenderSettingsMeta(s), SETTINGS_META_HEADING)
  {
    hide Index, TrimRight;
    HeadingsAreOwn();
    assert SETTINGS_META_HEADING + "\n\n" == SETTINGS_META_HEADING + "\n" + "\n";
  }

  lemma OpensPrefix(a: string, b: string, h: string)
    requires Opens(a, h) && HasPrefix(b, a)
    ensures Opens(b, h)
  {
  }

  /** BuildInjectBlock is empty or opens with one of its own headings. */
  lemma BlockOpens(s: InjectSettings) returns (h: string)
    requires BuildInjectBlock(s) != ""
    ensures Opens(BuildInjectBlock(s), h)
  {
    hide Index, TrimRight;
    var company, meta := RenderCompanyContext(s.companyContext), RenderSettingsMeta(s);
    var rules, output := RenderRulesBlock(s.rules), RenderOutputRequestBlock(s.outputFields);
    var parts := Section(company) + Section(meta) + Section(rules) + Section(output);
    JoinOpens(parts, "\n\n");
    if company != "" {
      h := COMPANY_HEADING;
      CompanyOpens(s.companyContext);
    } else if meta != "" {
      h := SETTINGS_META_HEADING;
      MetaOpens(s);
    } else if rules != "" {
      h := RULES_HEADING;
      RulesOpen(s.rules);
    } else {
      h := OUTPUT_REQUEST_HEADING;
      OutputOpens(s.outputFields);
    }
    OpensPrefix(parts[0], Join(parts, "\n\n"), h);
  }

  lemma OpensFacts(block: string, h: string)
    requires Opens(block, h)
    ensures OwnLine(h)
    ensures FirstLine(block) == h
    ensures TrimSpace(block) != "" && HasPrefix(TrimSpace(block), h)
  {
    hide Index, TrimRight;
    FirstLineIs(block, h);
    TrimKeepsLine(block, h);
  }

  lemma FirstLineIs(block: string, h: string)
    requires '\n' !in h && HasPrefix(block, h + "\n")
    ensures FirstLine(block) == h
  {
    hide Index, TrimRight;
    var i := Index(block, "\n");
    assert block[..|h| + 1] == h + "\n";
    assert block[|h|..|h| + 1] == "\n";
    assert OccursAt(block, "\n", |h|);
    CharOf(block, "\n", i, 0);
    assert forall k | 0 <= k < |h| :: block[k] == h[k];
    assert block[..|h|] == h;
  }

  lemma TrimKeepsLine(block: string, h: string)
    requires OwnLine(h) && HasPrefix(block, h)
    ensures TrimSpace(block) != "" && HasPrefix(TrimSpace(block), h)
  {
    hide Index, TrimRight;
    assert block[0] == h[0] && block[|h| - 1] == h[|h| - 1];
    TrimLeftId(block);
    var r := TrimRightSpace(block);
    assert |r| >= |h|;
    assert r[..|h|] == block[..|h|];
  }

  /** A text appended under its own heading never hides itself from the digest. */
  lemma OwnHeadingShows(tail: string, h: string)
    requires OwnLine(h) && HasPrefix(tail, h)
    ensures !HasPrefix(tail, BRIEF_HEADING) && !HasPrefix(tail, MINI_HEADING)
    ensures tail[0] !in TRAILING_WS
  {
    hide Index, TrimRight;
    assert tail[3] == h[3] && tail[4] == h[4] && tail[0] == h[0];
    assert BRIEF_HEADING[3] == 'S' && BRIEF_HEADING[4] == 'C';
    assert MINI_HEADING[3] == 'M' && MINI_HEADING[4] == 'I';
  }

  /** What is appended to a surface; empty when it is left alone. */
  function Tail(text: string, block: string, h: string): string {
    if HasHeading(text) && !Contains(text, h) then TrimSpace(block) + "\n" else ""
  }

  lemma SpliceIsAppend(text: string, block: string, h: string)
    requires block != ""
    ensures SpliceAfterBrief(text, block, h) == if Tail(text, block, h) == "" then text else Append(text, Tail(text, block, h))
    ensures HasHeading(text) ==> text != ""
  {
    hide Index, TrimRight, Contains, TrimSpace, HasHeading;
    EmptyHasNoHeading();
    Assoc(TrimRight(text) + "\n\n", TrimSpace(block), "\n");
  }

  lemma HeadingSurvives(text: string, tail: string, line: string)
    requires line != "" && line[|line| - 1] !in TRAILING_WS
    requires Contains(text, line)
    ensures Contains(Append(text, tail), line)
  {
    hide Index, TrimRight;
    var i := Index(text, line);
    OccursInTrimmed(text, line, i);
    OccursInPrefix(TrimRight(text), Append(text, tail), line, i);
  }

  lemma TrimAppend(text: string, t: string)
    requires t != "" && t[|t| - 1] !in TRAILING_WS
    ensures TrimRight(Append(text, t + "\n")) == Append(text, t)
  {
    hide Index, TrimRight;
    assert Append(text, t + "\n") == Append(text, t) + "\n";
    TrimRightIs(Append(text, t + "\n"), Append(text, t));
  }

  /** The two splices of one surface, one after the other; h and p are the headings that
      the block and the policy open with. */
  function Injected(text: string, block: string, h: string, policy: string, p: string, needB: bool, needP: bool): string {
    var t := if needB then SpliceAfterBrief(text, block, h) else text;
    if needP then SpliceAfterBrief(t, policy, p) else t
  }

  /** Everything the two splices append; empty when the surface is left alone. */
  function BagTail(text: string, block: string, h: string, policy: string, p: string, needB: bool, needP: bool): string {
    var t := if needB then Tail(text, block, h) else "";
    if !needP then t
    else if t == "" then Tail(text, policy, p)
    else if Contains(Append(text, t), p) then t
    else TrimSpace(block) + "\n\n" + TrimSpace(policy) + "\n"
  }

  lemma HasHeadingSurvives(text: string, tail: string)
    requires HasHeading(text)
    ensures HasHeading(Append(text, tail))
  {
    hide Index, TrimRight;
    if Contains(text, BRIEF_HEADING) {
      HeadingSurvives(text, tail, BRIEF_HEADING);
    } else {
      HeadingSurvives(text, tail, MINI_HEADING);
    }
  }

  lemma TwoAppends(text: string, block: string, policy: string)
    requires TrimSpace(block) != ""
    ensures Append(Append(text, TrimSpace(block) + "\n"), policy) == Append(text, TrimSpace(block) + "\n\n" + policy)
  {
    hide Index, TrimRight;
    TrimAppend(text, TrimSpace(block));
  }

  lemma InjectedIsAppend(text: string, block: string, h: string, policy: string, p: string, needB: bool, needP: bool)
    requires needB ==> Opens(block, h)
    requires Opens(policy, p)
    ensures var tail := BagTail(text, block, h, policy, p, needB, needP);
            && Injected(text, block, h, policy, p, needB, needP) == (if tail == "" then text else Append(text, tail))
            && (tail != "" ==> HasHeading(text) && text != "")
  {
    hide Index, TrimRight;
    SpliceIsAppend(text, policy, p);
    if needB {
      SpliceIsAppend(text, block, h);
      var t := Tail(text, block, h);
      if needP && t != "" {
        OpensFacts(block, h);
        HasHeadingSurvives(text, t);
        SpliceIsAppend(Append(text, t), policy, p);
        TwoAppends(text, block, TrimSpace(policy) + "\n");
        Assoc(TrimSpace(block) + "\n\n", TrimSpace(policy), "\n");
      }
    }
  }

  lemma BagTailShows(text: string, block: string, h: string, policy: string, p: string, needB: bool, needP: bool)
    requires needB ==> Opens(block, h)
    requires Opens(policy, p)
    requires BagTail(text, block, h, policy, p, needB, needP) != ""
    ensures var tail := BagTail(text, block, h, policy, p, needB, needP);
            tail[0] !in TRAILING_WS && !HasPrefix(tail, BRIEF_HEADING) && !HasPrefix(tail, MINI_HEADING)
  {
    hide Index, TrimRight;
    var tail := BagTail(text, block, h, policy, p, needB, needP);
    OpensFacts(policy, p);
    if needB && Tail(text, block, h) != "" {
      OpensFacts(block, h);
      assert HasPrefix(tail, TrimSpace(block));
      OwnHeadingShows(tail, h);
    } else {
      OwnHeadingShows(tail, p);
    }
  }

  lemma InjectIsRewrite(doc: Doc, block: string, h: string, policy: string, p: string)
    requires TrimSpace(block) == "" || Opens(block, h)
    requires Opens(policy, p)
    ensures var b, n := NeedsBlock(doc, block, h), NeedsPolicy(doc, p);
            InjectTexts(doc, block, h, policy, p) ==
              if b || n then
                Rewrite(doc, t => Injected(t, block, h, policy, p, b, n), t => Injected(t, block, h, policy, p, b, n))
              else doc
  {
    hide Index, TrimRight;
    var b, n := NeedsBlock(doc, block, h), NeedsPolicy(doc, p);
    OpensFacts(policy, p);
    if b { OpensFacts(block, h); }
    if b && n {
      RewriteTwice(doc, t => SpliceAfterBrief(t, block, h), t => SpliceAfterBrief(t, policy, p),
                   t => Injected(t, block, h, policy, p, b, n));
    } else if b {
      RewriteCong(doc, t => SpliceAfterBrief(t, block, h), t => Injected(t, block, h, policy, p, b, n));
    } else if n {
      RewriteCong(doc, t => SpliceAfterBrief(t, policy, p), t => Injected(t, block, h, policy, p, b, n));
    }
  }

  lemma CanonStringContent(doc: Doc)
    requires HasMsg0(doc)
    ensures HasMsg0(Canonical(doc)) && (StringContent(Canonical(doc)) <==> StringContent(doc))
  {
    hide Index, TrimRight;
    KeysKept();
    CanonicalHasMsg0(doc);
    CanonObj(Msg0(doc));
  }

  /** A surface keeps its view: nothing is appended, or the text is cut before it. */
  predicate SurfaceSafe(text: string, tail: string) {
    || tail == ""
    || Contains(text, SCOPE_BRIEF_MARKER)
    || (Contains(text, MINI_SCHEMA_MARKER) && !AddsScope(tail))
  }

  predicate MessageSafe(doc: Doc, tail: string)
    requires HasMsg0(doc)
  {
    if IsSystem(Msg0(doc)) then tail == "" || Marked(Msg0Text(doc)) else SurfaceSafe(Msg0Text(doc), tail)
  }

  function Appended(text: string, tail: string): string {
    if tail == "" then text else Append(text, tail)
  }

  predicate Shows(tail: string) {
    tail == "" || (tail[0] !in TRAILING_WS && !HasPrefix(tail, BRIEF_HEADING) && !HasPrefix(tail, MINI_HEADING))
  }

  lemma SurfaceView(text: string, tail: string)
    requires Shows(tail)
    ensures StripScopeBrief(Appended(text, tail)) == StripScopeBrief(text) <==> SurfaceSafe(text, tail)
    ensures SystemView(Appended(text, tail)) == SystemView(text) <==> (tail == "" || Marked(text))
  {
    hide Index, TrimRight;
    if tail != "" {
      StripAppend(text, tail);
      SystemAppend(text, tail);
    }
  }

  /** The same for any rewrite that appends visible tails. */
  lemma AppendKeepsCanonical(doc: Doc, f: string -> string, tail0: string, tail1: string)
    requires Shows(tail0) && Shows(tail1)
    requires f(Msg0Text(doc)) == Appended(Msg0Text(doc), tail0) && f(InstrText(doc)) == Appended(InstrText(doc), tail1)
    requires InstrText(doc) == "" ==> tail1 == ""
    ensures Canonical(Rewrite(doc, f, f)) == Canonical(doc) <==>
              (&& StringContent(doc)
               && (HasMsg0(doc) ==> MessageSafe(doc, tail0))
               && SurfaceSafe(InstrText(doc), tail1))
  {
    hide Index, TrimRight;
    if StringContent(doc) {
      CanonicalRewrite(doc, f, f);
      SurfaceView(Msg0Text(doc), tail0);
      SurfaceView(InstrText(doc), tail1);
    } else {
      RewriteStringContent(doc, f, f);
      CanonStringContent(doc);
      CanonStringContent(Rewrite(doc, f, f));
    }
  }

  lemma InjectedAppends(text: string, block: string, h: string, policy: string, p: string, b: bool, n: bool)
    requires b ==> Opens(block, h)
    requires Opens(policy, p)
    ensures var tail := BagTail(text, block, h, policy, p, b, n);
            && Injected(text, block, h, policy, p, b, n) == Appended(text, tail)
            && Shows(tail) && (text == "" ==> tail == "")
  {
    hide Index, TrimRight;
    InjectedIsAppend(text, block, h, policy, p, b, n);
    if BagTail(text, block, h, policy, p, b, n) != "" { BagTailShows(text, block, h, policy, p, b, n); }
  }

  /** What injectBagB appends to a surface of this document. */
  function InjectTail(doc: Doc, s: InjectSettings, text: string): string {
    var block := BuildInjectBlock(s);
    BagTail(text, block, FirstLine(block), RenderToolPathPolicy(s), TOOL_PATH_HEADING,
            NeedsBlock(doc, block, FirstLine(block)), NeedsPolicy(doc, TOOL_PATH_HEADING))
  }

  predicate Injects(doc: Doc, s: InjectSettings) {
    NeedsBlock(doc, BuildInjectBlock(s), FirstLine(BuildInjectBlock(s))) || NeedsPolicy(doc, TOOL_PATH_HEADING)
  }

  predicate InjectSafe(doc: Doc, s: InjectSettings) {
    || !Injects(doc, s)
    || (&& StringContent(doc)
        && (HasMsg0(doc) ==> MessageSafe(doc, InjectTail(doc, s, Msg0Text(doc))))
        && SurfaceSafe(InstrText(doc), InjectTail(doc, s, InstrText(doc))))
  }

  lemma SettingsOpen(s: InjectSettings)
    ensures Opens(RenderToolPathPolicy(s), TOOL_PATH_HEADING)
    ensures TrimSpace(BuildInjectBlock(s)) == "" || Opens(BuildInjectBlock(s), FirstLine(BuildInjectBlock(s)))
  {
    hide Index, TrimRight, BuildInjectBlock, FirstLine;
    HeadingsAreOwn();
    assert TOOL_PATH_HEADING + "\n\n" == TOOL_PATH_HEADING + "\n" + "\n";
    if BuildInjectBlock(s) == "" {
      BlankTrim();
    } else {
      var h := BlockOpens(s);
      OpensFacts(BuildInjectBlock(s), h);
    }
  }

  /** Exactly when Bag B injection leaves the digested tree alone: nothing is injected, or
      the message content is a string and every surface that text is appended to has a
      marker behind which the digest does not look. */
  lemma InjectKeepsCanonical(doc: Doc, s: InjectSettings)
    ensures Canonical(InjectBagB(doc, s)) == Canonical(doc) <==> InjectSafe(doc, s)
  {
    hide Index, TrimRight;
    SettingsOpen(s);
    TextsKeepCanonical(doc, BuildInjectBlock(s), FirstLine(BuildInjectBlock(s)), RenderToolPathPolicy(s), TOOL_PATH_HEADING);
  }

  lemma TextsKeepCanonical(doc: Doc, block: string, h: string, policy: string, p: string)
    requires TrimSpace(block) == "" || Opens(block, h)
    requires Opens(policy, p)
    ensures var b, n := NeedsBlock(doc, block, h), NeedsPolicy(doc, p);
            Canonical(InjectTexts(doc, block, h, policy, p)) == Canonical(doc) <==>
              (|| !(b || n)
               || (&& StringContent(doc)
                   && (HasMsg0(doc) ==> MessageSafe(doc, BagTail(Msg0Text(doc), block, h, policy, p, b, n)))
                   && SurfaceSafe(InstrText(doc), BagTail(InstrText(doc), block, h, policy, p, b, n))))
  {
    hide Index, TrimRight;
    var b, n := NeedsBlock(doc, block, h), NeedsPolicy(doc, p);
    InjectIsRewrite(doc, block, h, policy, p);
    if b || n {
      InjectedAppends(Msg0Text(doc), block, h, policy, p, b, n);
      InjectedAppends(InstrText(doc), block, h, policy, p, b, n);
      AppendKeepsCanonical(doc, t => Injected(t, block, h, policy, p, b, n),
                           BagTail(Msg0Text(doc), block, h, policy, p, b, n), BagTail(InstrText(doc), block, h, policy, p, b, n));
    }
  }

  /** Splicing keeps every visible line of a surface. */
  lemma SpliceKeeps(text: string, block: string, h: string, line: string)
    requires Opens(block, h) && line != "" && line[|line| - 1] !in TRAILING_WS
    requires Contains(text, line)
    ensures Contains(SpliceAfterBrief(text, block, h), line)
  {
    hide Index, TrimRight;
    SpliceIsAppend(text, block, h);
    if Tail(text, block, h) != "" { HeadingSurvives(text, Tail(text, block, h), line); }
  }

  lemma AppendHas(text: string, block: string, h: string, rest: string)
    requires Opens(block, h)
    ensures Contains(Append(text, TrimSpace(block) + rest), h)
  {
    hide Index, TrimRight;
    OpensFacts(block, h);
    var s := Append(text, TrimSpace(block) + rest);
    var i := |TrimRight(text)| + 2;
    assert s[i..] == TrimSpace(block) + rest;
    assert s[i..i + |h|] == TrimSpace(block)[..|h|] == h;
    assert OccursAt(s, h, i);
  }

  /** A spliced surface that carries a marker heading carries the spliced heading. */
  lemma SpliceHas(text: string, block: string, h: string)
    requires Opens(block, h) && HasHeading(text)
    ensures Contains(SpliceAfterBrief(text, block, h), h)
    ensures HasHeading(SpliceAfterBrief(text, block, h))
  {
    hide Index, TrimRight;
    SpliceIsAppend(text, block, h);
    if Tail(text, block, h) != "" {
      AppendHas(text, block, h, "\n");
      HasHeadingSurvives(text, Tail(text, block, h));
    }
  }

  /** One splice over a document: which headings its surfaces carry afterwards. */
  lemma PassHeadings(doc: Doc, block: string, h: string, line: string)
    requires Opens(block, h) && line != "" && line[|line| - 1] !in TRAILING_WS
    ensures var out := SpliceChatReq(doc, block, h);
            && (ChatReqHasHeading(doc, line) ==> ChatReqHasHeading(out, line))
            && (ChatReqHasBriefMarker(doc) ==> ChatReqHasBriefMarker(out) && ChatReqHasHeading(out, h))
  {
    hide Index, TrimRight;
    var t0, t1 := Msg0Text(doc), InstrText(doc);
    OpensFacts(block, h);
    EmptyHasNothing(h);
    EmptyHasNothing(line);
    if Contains(t0, line) { SpliceKeeps(t0, block, h, line); }
    if Contains(t1, line) { SpliceKeeps(t1, block, h, line); }
    if HasHeading(t0) { SpliceHas(t0, block, h); }
    if HasHeading(t1) { SpliceHas(t1, block, h); }
  }

  lemma EmptyHasNothing(line: string)
    requires line != ""
    ensures !Contains("", line) && !HasHeading("")
  {
  }

  /** One conditional pass puts its heading in place and keeps any other line. */
  lemma PassSettles(doc: Doc, d: Doc, block: string, h: string, line: string)
    requires Opens(block, h) && line != "" && line[|line| - 1] !in TRAILING_WS
    requires d == SpliceChatReq(doc, block, h) || (d == doc && ChatReqHasHeading(doc, h))
    requires ChatReqHasBriefMarker(doc)
    ensures ChatReqHasBriefMarker(d) && ChatReqHasHeading(d, h)
    ensures ChatReqHasHeading(doc, line) ==> ChatReqHasHeading(d, line)
  {
    hide Index, TrimRight;
    PassHeadings(doc, block, h, line);
  }

  /** After a pass, none is needed: its headings are in place or there is nothing to put
      them behind. */
  lemma InjectSettles(doc: Doc, block: string, h: string, policy: string, p: string)
    requires Opens(policy, p)
    requires TrimSpace(block) == "" || Opens(block, h)
    ensures var out := InjectTexts(doc, block, h, policy, p); !NeedsBlock(out, block, h) && !NeedsPolicy(out, p)
  {
    hide Index, TrimRight, SpliceChatReq, Contains, HasHeading, TrimSpace, Msg0Text, InstrText;
    if ChatReqHasBriefMarker(doc) {
      var d := if NeedsBlock(doc, block, h) then SpliceChatReq(doc, block, h) else doc;
      var out := InjectTexts(doc, block, h, policy, p);
      if TrimSpace(block) != "" {
        PassSettles(doc, d, block, h, p);
        PassSettles(d, out, policy, p, h);
      } else {
        PassSettles(d, out, policy, p, p);
      }
    }
  }

  /** A second pass of injectBagB returns its input, whatever the document. */
  lemma InjectIdempotent(doc: Doc, s: InjectSettings)
    ensures InjectBagB(InjectBagB(doc, s), s) == InjectBagB(doc, s)
  {
    hide Index, TrimRight, BuildInjectBlock, RenderToolPathPolicy, FirstLine, SpliceChatReq, Contains, HasHeading, TrimSpace;
    SettingsOpen(s);
    InjectSettles(doc, BuildInjectBlock(s), FirstLine(BuildInjectBlock(s)), RenderToolPathPolicy(s), TOOL_PATH_HEADING);
  }
}
