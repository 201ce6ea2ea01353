/** The stamp of a loaded catalog through healing, the live brief merge and Bag B. */
module StampSurvival {
  import opened Text
  import opened Json
  import opened Contract
  import opened ControlPlane
  import opened DigestView
  import opened BagB

  lemma HexIsReal(h: Hex)
    ensures RealHash("md5:" + h) == "md5:" + h && "md5:" + h != ""
  {
    hide Index, TrimRight;
    var s := "md5:" + h;
    assert forall i :: 4 <= i < |s| ==> s[i] == h[i - 4];
    HexVisibleEnd(h);
    TrimSpaceId(s);
    NotPlaceholder(s);
  }

  lemma HexVisibleEnd(h: Hex)
    ensures !IsSpace(h[31]) && forall i :: 0 <= i < |h| ==> h[i] != 'T' && h[i] != '\n'
  {
    hide Index, TrimRight;
    assert h[31] in "0123456789abcdef";
  }

  lemma NotPlaceholder(s: string)
    requires 'T' !in s
    ensures !Contains(s, "TO_BE_FILLED")
  {
    hide Index, TrimRight;
    var k := Index(s, "TO_BE_FILLED");
    if k >= 0 { CharOf(s, "TO_BE_FILLED", k, 0); }
  }

  /** A document that differs on the prompt surfaces only carries the same stamp. */
  lemma StampUntouched(d: Doc, e: Doc)
    requires forall k :: k !in {"messages", "instructions"} ==> (k in d <==> k in e) && (k in d ==> d[k] == e[k])
    ensures ExtractStampedHash(d) == ExtractStampedHash(e) && OwnStamp(d) == OwnStamp(e)
    ensures AsString(d, "hash") == AsString(e, "hash")
  {
    hide Index, TrimRight, RealHash;
    assert "contract" in d <==> "contract" in e;
    assert "_hash" in d <==> "_hash" in e;
    assert "hash" in d <==> "hash" in e;
    assert "stamped_chat_request" in d <==> "stamped_chat_request" in e;
    assert "stamped" in d <==> "stamped" in e;
  }

  lemma RstripIdempotent(s: string)
    ensures Rstrip(Rstrip(s)) == Rstrip(s)
  {
    hide Index, TrimRight;
    if !HasHeading(s) {
      var r := TrimRight(s);
      TrimRightIs(r, r);
    }
  }

  lemma RstrippedSurfaces(doc: Doc)
    ensures var n := Rstripped(doc);
            && Msg0Text(n) == Rstrip(Msg0Text(doc)) && InstrText(n) == Rstrip(InstrText(doc))
            && HasMsg0(n) == HasMsg0(doc) && (StringContent(doc) ==> StringContent(n))
            && ExtractStampedHash(n) == ExtractStampedHash(doc) && OwnStamp(n) == OwnStamp(doc)
            && AsString(n, "hash") == AsString(doc, "hash")
  {
    hide Index, TrimRight;
    StampUntouched(doc, Rstripped(doc));
  }

  /** Keys that the digest skips may change freely. */
  lemma CanonicalSkips(d: Doc, e: Doc)
    requires forall k :: !HashExcluded(k) ==> (k in d <==> k in e) && (k in d ==> d[k] == e[k])
    ensures Canonical(d) == Canonical(e)
  {
    hide Index, TrimRight;
    CanonObj(d);
    CanonObj(e);
    KeysKept();
    assert AsString(d, "role") == AsString(e, "role");
    forall k | k in d && !HashExcluded(k) ensures k in e && CanonField(d, k) == CanonField(e, k) {}
  }

  /** Any document without a real contract hash can be stamped: written under "_hash", its
      digest holds, and nothing else about it changes. */
  lemma {:induction false} StampingHolds(md5: Digest, doc: Doc)
    requires "contract" in doc && doc["contract"].Obj? ==> RealHash(AsString(doc["contract"].fields, "hash")) == ""
    ensures var d := doc["_hash" := Str(ComputeContractHash(md5, doc))];
            && StampHolds(md5, d) && OwnStamp(d) == ComputeContractHash(md5, doc)
            && Msg0Text(d) == Msg0Text(doc) && InstrText(d) == InstrText(doc) && StringContent(d) == StringContent(doc)
  {
    hide Index, TrimRight, Canonical, RealHash;
    var h := ComputeContractHash(md5, doc);
    var d := doc["_hash" := Str(h)];
    assert HashExcluded("_hash");
    CanonicalSkips(doc, d);
    HexIsReal(md5(Canonical(doc)));
    assert "contract" in d <==> "contract" in doc;
    assert "messages" in d <==> "messages" in doc;
    assert "instructions" in d <==> "instructions" in doc;
  }

  lemma CanonicalSetHash(d: Doc, h: string)
    requires StripScopeBrief(h) == h
    ensures Canonical(d["hash" := Str(h)]) == Canonical(d)["hash" := Str(h)]
  {
    hide Index, TrimRight;
    assert !HashExcluded("hash") by { assert "hash"[0] == 'h'; }
    CanonSet(d, "hash", Str(h));
  }

  lemma OneLineVisible(s: string)
    requires '\n' !in s
    ensures StripScopeBrief(s) == s
  {
    hide Index, TrimRight;
    NoMarker(s, BRIEF_HEADING);
    NoMarker(s, MINI_HEADING);
  }

  lemma NoMarker(s: string, line: string)
    requires '\n' !in s
    ensures Index(s, "\n\n" + line) == -1
  {
    hide Index, TrimRight;
    var i := Index(s, "\n\n" + line);
    if i >= 0 { CharOf(s, "\n\n" + line, i, 0); }
  }

  lemma HexVisible(h: Hex)
    ensures StripScopeBrief("md5:" + h) == "md5:" + h
  {
    hide Index, TrimRight;
    var s := "md5:" + h;
    assert forall i :: 4 <= i < |s| ==> s[i] == h[i - 4];
    HexVisibleEnd(h);
    OneLineVisible(s);
  }

  /** Where rewriteEmbeddedHash writes: the stamp's own place and, if it holds the same
      text, the top-level "hash" key, which is digested. */
  lemma EmbeddedRewrite(n: Doc, stamped: string, h: Hex)
    requires stamped == ExtractStampedHash(n) != "" && stamped != "md5:" + h
    ensures var r := RewriteEmbeddedHash(n, stamped, "md5:" + h);
            && Canonical(r) == (if TrimSpace(AsString(n, "hash")) == stamped then Canonical(n)["hash" := Str("md5:" + h)]
                                else Canonical(n))
            && ExtractStampedHash(r) == (if OwnStamp(n) != "" then "md5:" + h else stamped)
            && (forall k :: k in {"messages", "instructions"} ==> (k in n <==> k in r) && (k in n ==> n[k] == r[k]))
  {
    hide Index, TrimRight, RealHash, TrimSpace, StripScopeBrief, OwnStamp, ExtractStampedHash, Canonical;
    HexIsReal(h);
    HexVisible(h);
    var renewed := "md5:" + h;
    var r := RewriteEmbeddedHash(n, stamped, renewed);
    EmbeddedCanonical(n, r, renewed);
    EmbeddedStamp(n, stamped, renewed);
  }

  lemma EmbeddedCanonical(n: Doc, r: Doc, renewed: string)
    requires StripScopeBrief(renewed) == renewed
    requires forall k :: k !in {"contract", "_hash", "hash"} ==> (k in n <==> k in r) && (k in n ==> n[k] == r[k])
    ensures "hash" in r && r["hash"] == Str(renewed) ==> Canonical(r) == Canonical(n)["hash" := Str(renewed)]
    ensures ("hash" in n <==> "hash" in r) && ("hash" in n ==> n["hash"] == r["hash"]) ==> Canonical(r) == Canonical(n)
  {
    hide Index, TrimRight, TrimSpace, Canonical;
    assert HashExcluded("_hash") && HashExcluded("contract");
    if "hash" in r && r["hash"] == Str(renewed) {
      CanonicalSkips(r, n["hash" := Str(renewed)]);
      CanonicalSetHash(n, renewed);
    }
    if ("hash" in n <==> "hash" in r) && ("hash" in n ==> n["hash"] == r["hash"]) {
      CanonicalSkips(r, n);
    }
  }

  lemma EmbeddedStamp(n: Doc, stale: string, renewed: string)
    requires stale == ExtractStampedHash(n) != "" && renewed != "" && stale != renewed && RealHash(renewed) == renewed
    ensures ExtractStampedHash(RewriteEmbeddedHash(n, stale, renewed)) == if OwnStamp(n) != "" then renewed else stale
  {
    hide Index, TrimRight, RealHash, TrimSpace, IsReal;
    RealIsTrimmed(AsString(n, "_hash"), stale);
    RealIsTrimmed(AsString(n, "hash"), stale);
    if "contract" in n && n["contract"].Obj? { RealIsTrimmed(AsString(n["contract"].fields, "hash"), stale); }
    StampIsReal(n);
  }

  predicate IsReal(h: string) {
    h != "" && !Contains(h, "TO_BE_FILLED")
  }

  /** A real stamp is found in a field exactly when the trimmed field is that stamp. */
  lemma RealIsTrimmed(s: string, h: string)
    requires h != ""
    ensures RealHash(s) == h ==> TrimSpace(s) == h && IsReal(h)
    ensures TrimSpace(s) == h && IsReal(h) ==> RealHash(s) == h
  {
  }

  lemma StampIsReal(n: Doc)
    ensures ExtractStampedHash(n) == "" || IsReal(ExtractStampedHash(n))
  {
    hide Index, TrimRight, RealHash, IsReal;
    OwnIsReal(n);
    if "stamped_chat_request" in n && n["stamped_chat_request"].Obj? { OwnIsReal(n["stamped_chat_request"].fields); }
    if "stamped" in n && n["stamped"].Obj? { OwnIsReal(n["stamped"].fields); }
  }

  lemma OwnIsReal(m: Doc)
    ensures OwnStamp(m) == "" || IsReal(OwnStamp(m))
  {
    hide Index, TrimRight, RealHash, IsReal;
    FieldIsReal(AsString(m, "_hash"));
    FieldIsReal(AsString(m, "hash"));
    if "contract" in m && m["contract"].Obj? { FieldIsReal(AsString(m["contract"].fields, "hash")); }
  }

  lemma FieldIsReal(s: string)
    ensures RealHash(s) == "" || IsReal(RealHash(s))
  {
  }

  /** Trimming the surfaces changes nothing or does not move the digest, or the stamp sits
      in the document itself (not in a wrapper) and no digested top-level "hash" key repeats
      it.  With such a key the digest moves again when the key is rewritten, so the stamp
      holds only if the two different trees collide. */
  predicate HealSafe(md5: Digest, doc: Doc) {
    var n := Rstripped(doc);
    || n == doc || md5(Canonical(n)) == md5(Canonical(doc))
    || (&& OwnStamp(doc) != ""
        && (TrimSpace(AsString(doc, "hash")) != ExtractStampedHash(doc)
            || md5(Canonical(n)["hash" := Str(ComputeContractHash(md5, n))]) == md5(Canonical(n))))
  }

  /** Exactly when healing keeps a stamp that held. */
  lemma HealKeepsStamp(md5: Digest, doc: Doc)
    requires StampHolds(md5, doc)
    ensures StampHolds(md5, Heal(md5, doc)) <==> HealSafe(md5, doc)
  {
    hide Index, TrimRight, OwnStamp, ExtractStampedHash, Canonical, TrimSpace, Rstripped, RewriteEmbeddedHash;
    var n := Rstripped(doc);
    RstrippedSurfaces(doc);
    HexIsReal(md5(Canonical(doc)));
    SameSum(md5(Canonical(n)), md5(Canonical(doc)));
    if n != doc && md5(Canonical(n)) != md5(Canonical(doc)) {
      EmbeddedRewrite(n, ExtractStampedHash(n), md5(Canonical(n)));
      SameSum(md5(Canonical(n)), md5(Canonical(Heal(md5, doc))));
      if OwnStamp(n) == "" { WrapperOnly(n); }
    }
  }

  lemma SameSum(a: Hex, b: Hex)
    ensures "md5:" + a == "md5:" + b <==> a == b
  {
    hide Index, TrimRight;
    assert ("md5:" + a)[4..] == a && ("md5:" + b)[4..] == b;
  }

  lemma WrapperOnly(n: Doc)
    requires OwnStamp(n) == "" && ExtractStampedHash(n) != ""
    ensures TrimSpace(AsString(n, "hash")) != ExtractStampedHash(n)
  {
    hide Index, TrimRight;
    StampIsReal(n);
    hide RealHash, TrimSpace, IsReal;
    RealIsTrimmed(AsString(n, "hash"), ExtractStampedHash(n));
  }

  /** A stamp in a wrapper goes stale: healing trims the prompt and leaves the wrapper alone,
      so the stamp still holds only if the two digests collide. */
  lemma {:induction false} WrapperStampGoesStale(md5: Digest)
    ensures var plain := map["instructions" := Obj(map["system_prompt" := Str("x ")]), "stamped" := Obj(map[])];
      var doc := plain["stamped" := Obj(map["_hash" := Str(ComputeContractHash(md5, plain))])];
      && StampHolds(md5, doc) && Rstripped(doc) != doc
      && (StampHolds(md5, Heal(md5, doc)) <==> md5(Canonical(Rstripped(doc))) == md5(Canonical(doc)))
  {
    var plain := map["instructions" := Obj(map["system_prompt" := Str("x ")]), "stamped" := Obj(map[])];
    var h := md5(Canonical(plain));
    var doc := plain["stamped" := Obj(map["_hash" := Str("md5:" + h)])];
    WrapperSkipped(plain, Str("md5:" + h));
    WrappedStamp(doc, h);
    BlankEnd();
    assert InstrText(doc) == "x ";
    RstrippedSurfaces(doc);
    hide Index, TrimRight, Canonical, Rstripped, ExtractStampedHash, OwnStamp;
    HealKeepsStamp(md5, doc);
  }

  lemma WrapperSkipped(plain: Doc, stamp: Value)
    requires "stamped" in plain && plain["stamped"] == Obj(map[])
    ensures Canonical(plain["stamped" := Obj(map["_hash" := stamp])]) == Canonical(plain)
  {
    hide Index, TrimRight, Canonicalize;
    var doc := plain["stamped" := Obj(map["_hash" := stamp])];
    assert HashExcluded("_hash");
    assert StripForHash(doc["stamped"]).fields == map[] == StripForHash(plain["stamped"]).fields;
    assert StripForHash(Obj(doc)).fields == StripForHash(Obj(plain)).fields;
  }

  lemma WrappedStamp(doc: Doc, h: Hex)
    requires doc.Keys == {"instructions", "stamped"} && doc["stamped"] == Obj(map["_hash" := Str("md5:" + h)])
    ensures ExtractStampedHash(doc) == "md5:" + h && OwnStamp(doc) == ""
  {
    hide Index, TrimRight;
    HexIsReal(h);
    BlankTrim();
    RealOfNone();
    hide RealHash;
    assert "hash" !in doc && "_hash" !in doc && "contract" !in doc && "stamped_chat_request" !in doc;
  }

  lemma RealOfNone()
    ensures RealHash("") == ""
  {
    hide Index;
    BlankTrim();
  }

  lemma BlankEnd()
    ensures Rstrip("x ") == "x"
  {
    var s := "x ";
    assert !Contains(s, BRIEF_HEADING) && !Contains(s, MINI_HEADING);
    TrimRightIs(s, "x");
  }

  /** After healing, trimming the surfaces would not move the digest. */
  lemma HealSettles(md5: Digest, doc: Doc)
    requires StampHolds(md5, doc)
    ensures var h := Heal(md5, doc);
            && ComputeContractHash(md5, Rstripped(h)) == ComputeContractHash(md5, h)
            && (Msg0Text(h) == Msg0Text(doc) || Msg0Text(h) == Rstrip(Msg0Text(doc)))
            && (InstrText(h) == InstrText(doc) || InstrText(h) == Rstrip(InstrText(doc)))
            && (StringContent(doc) ==> StringContent(h))
  {
    hide Index, TrimRight, OwnStamp, ExtractStampedHash, Canonical, TrimSpace, RewriteEmbeddedHash, Rstrip, HasHeading;
    var n := Rstripped(doc);
    RstrippedSurfaces(doc);
    HexIsReal(md5(Canonical(doc)));
    if n != doc && ComputeContractHash(md5, n) != ComputeContractHash(md5, doc) {
      EmbeddedRewrite(n, ExtractStampedHash(n), md5(Canonical(n)));
      var h := Heal(md5, doc);
      assert "messages" in n <==> "messages" in h;
      assert "instructions" in n <==> "instructions" in h;
      RstripIdempotent(Msg0Text(doc));
      RstripIdempotent(InstrText(doc));
    }
  }

  /** A live brief opens with the brief heading. */
  lemma LiveBriefOpens(lives: seq<Fetch>)
    ensures FirstBrief(lives) == "" || (HasPrefix(FirstBrief(lives), BRIEF_HEADING) && TrimSpace(FirstBrief(lives)) == FirstBrief(lives))
  {
    hide Index, TrimRight;
    if lives != [] {
      if lives[0].Live? { BriefOpens(lives[0].doc); }
      LiveBriefOpens(lives[1..]);
    }
  }

  lemma BriefOpens(doc: Doc)
    ensures ExtractScopeBrief(doc) == "" || (HasPrefix(ExtractScopeBrief(doc), BRIEF_HEADING) && TrimSpace(ExtractScopeBrief(doc)) == ExtractScopeBrief(doc))
  {
    hide Index, TrimRight;
    var t0, t1 := Msg0Text(doc), InstrText(doc);
    if Contains(t0, BRIEF_HEADING) {
      SectionOpens(t0);
    } else if Contains(t1, BRIEF_HEADING) {
      SectionOpens(t1);
    }
  }

  lemma SectionOpens(t: string)
    requires Contains(t, BRIEF_HEADING)
    ensures var b := TrimSpace(t[Index(t, BRIEF_HEADING)..]); HasPrefix(b, BRIEF_HEADING) && TrimSpace(b) == b
  {
    hide Index, TrimRight;
    var i := Index(t, BRIEF_HEADING);
    var u := t[i..];
    assert u[..|BRIEF_HEADING|] == t[i..i + |BRIEF_HEADING|];
    TrimKeepsOpening(u, BRIEF_HEADING);
    TrimSpaceId(TrimSpace(u));
  }

  lemma TrimKeepsOpening(u: string, h: string)
    requires HasPrefix(u, h) && h != "" && !IsSpace(h[0]) && !IsSpace(h[|h| - 1])
    ensures HasPrefix(TrimSpace(u), h)
  {
    hide Index, TrimRight;
    assert u[0] == h[0] && u[|h| - 1] == h[|h| - 1];
    TrimLeftId(u);
    var r := TrimRightSpace(u);
    assert |r| >= |h|;
    assert r[..|h|] == u[..|h|];
  }

  lemma NotHeadedNotMarked(t: string)
    requires !HasHeading(t)
    ensures !Marked(t)
  {
    hide Index, TrimRight;
    var i, j := Index(t, SCOPE_BRIEF_MARKER), Index(t, MINI_SCHEMA_MARKER);
    if i >= 0 {
      assert t[i..i + |SCOPE_BRIEF_MARKER|][2..] == t[i + 2..i + 2 + |BRIEF_HEADING|];
      assert SCOPE_BRIEF_MARKER[2..] == BRIEF_HEADING;
      ContainsAt(t, BRIEF_HEADING, i + 2);
    } else if j >= 0 {
      assert t[j..j + |MINI_SCHEMA_MARKER|][2..] == t[j + 2..j + 2 + |MINI_HEADING|];
      assert MINI_SCHEMA_MARKER[2..] == MINI_HEADING;
      ContainsAt(t, MINI_HEADING, j + 2);
    }
  }

  /** Merging a brief onto a surface shows the digest what trimming the surface shows. */
  lemma MergeView(t: string, brief: string)
    requires HasPrefix(brief, BRIEF_HEADING) && TrimSpace(brief) == brief
    ensures StripScopeBrief(MergeText(t, brief)) == StripScopeBrief(Rstrip(t))
    ensures SystemView(MergeText(t, brief)) == SystemView(Rstrip(t))
  {
    hide Index, TrimRight;
    if !HasHeading(t) {
      NotHeadedNotMarked(t);
      TrimmedUnmarked(t);
      assert brief[0] == '#';
      StripAppend(t, brief);
      SystemAppend(t, brief);
    }
  }

  /** A live merge moves the digest exactly as trimming the surfaces does. */
  lemma MergeCanonical(doc: Doc, brief: string)
    requires StringContent(doc)
    requires HasPrefix(brief, BRIEF_HEADING) && TrimSpace(brief) == brief
    ensures Canonical(MergeScopeBrief(doc, brief)) == Canonical(Rstripped(doc))
  {
    hide Index, TrimRight, Canonical, StripScopeBrief, TrimSpace, HasHeading, Rstrip;
    RstrippedIsRewrite(doc);
    MergeView(Msg0Text(doc), brief);
    MergeView(InstrText(doc), brief);
    RewriteCong(doc, t => Rstrip(t), Rstrip);
    CanonicalRewrites(doc, t => MergeText(t, brief), t => Rstrip(t));
  }

  /** A prompt surface whose marker headings follow a blank line, with no scope marker in
      the injected block to cut a surface that has a mini schema only. */
  predicate SurfaceReady(t: string, block: string) {
    HasHeading(t) ==>
      Contains(t, SCOPE_BRIEF_MARKER) || (Contains(t, MINI_SCHEMA_MARKER) && !AddsScope(TrimSpace(block)))
  }

  lemma MergedReady(t: string, brief: string, block: string)
    requires HasPrefix(brief, BRIEF_HEADING) && TrimSpace(brief) == brief
    requires SurfaceReady(t, block)
    ensures SurfaceReady(MergeText(t, brief), block)
  {
    hide Index, TrimRight;
    if !HasHeading(t) {
      NotHeadedNotMarked(t);
      MarkerAdded(t, brief, BRIEF_HEADING);
    }
  }

  lemma RstripReady(t: string, block: string)
    requires SurfaceReady(t, block)
    ensures SurfaceReady(Rstrip(t), block)
  {
    hide Index, TrimRight;
    if !HasHeading(t) {
      var r := TrimRight(t);
      var i, j := Index(r, BRIEF_HEADING), Index(r, MINI_HEADING);
      if i >= 0 { OccursInPrefix(r, t, BRIEF_HEADING, i); }
      if j >= 0 { OccursInPrefix(r, t, MINI_HEADING, j); }
    }
  }

  /** The scope marker cannot arise at the end of a block or in the policy paragraph. */
  lemma BlockBreakAddsNone(b: string)
    requires !AddsScope(b)
    ensures !AddsScope(b + "\n")
  {
    hide Index, TrimRight;
    var u, v := "\n\n" + b, "\n\n" + (b + "\n");
    var i := Index(v, SCOPE_BRIEF_MARKER);
    if i >= 0 {
      CharOf(v, SCOPE_BRIEF_MARKER, i, |SCOPE_BRIEF_MARKER| - 1);
      assert v == u + "\n";
      assert SCOPE_BRIEF_MARKER[|SCOPE_BRIEF_MARKER| - 1] == 'F';
      assert i + |SCOPE_BRIEF_MARKER| <= |u|;
      assert u[i..i + |SCOPE_BRIEF_MARKER|] == v[i..i + |SCOPE_BRIEF_MARKER|];
      ContainsAt(u, SCOPE_BRIEF_MARKER, i);
    }
  }

  lemma OneHeadingAddsNone(p: string)
    requires |p| > 3 && p[3] != 'S' && forall k :: 2 <= k < |p| ==> p[k] != '#'
    ensures !AddsScope(p)
  {
    hide Index, TrimRight;
    var u := "\n\n" + p;
    assert forall k :: 2 <= k < |u| ==> u[k] == p[k - 2];
    var i := Index(u, SCOPE_BRIEF_MARKER);
    if i >= 0 {
      CharOf(u, SCOPE_BRIEF_MARKER, i, 2);
      CharOf(u, SCOPE_BRIEF_MARKER, i, 3);
      CharOf(u, SCOPE_BRIEF_MARKER, i, 5);
      MarkerChars();
    }
  }

  lemma MarkerChars()
    ensures SCOPE_BRIEF_MARKER[5] == 'S' && SCOPE_BRIEF_MARKER[2] == '#' && SCOPE_BRIEF_MARKER[3] == '#'
  {
  }

  lemma HeadingHash()
    ensures forall k :: 2 <= k < |TOOL_PATH_HEADING| ==> TOOL_PATH_HEADING[k] != '#'
    ensures TOOL_PATH_HEADING[3] == 'T' && TOOL_PATH_HEADING[0] == '#'
  {
  }

  lemma PolicyAddsNone(s: InjectSettings)
    ensures !AddsScope(RenderToolPathPolicy(s)) && TrimSpace(RenderToolPathPolicy(s)) == RenderToolPathPolicy(s)
  {
    hide Index, TrimRight;
    HeadingHash();
    PolicyParagraph(TOOL_PATH_HEADING, s.policy);
  }

  lemma PolicyParagraph(h: string, line: PolicyLine)
    requires |h| > 3 && h[0] == '#' && h[3] != 'S' && forall k :: 2 <= k < |h| ==> h[k] != '#'
    ensures !AddsScope(h + "\n\n" + line) && TrimSpace(h + "\n\n" + line) == h + "\n\n" + line
  {
    hide Index, TrimRight;
    var p := h + "\n\n" + line;
    assert forall k :: |h| + 2 <= k < |p| ==> p[k] == line[k - |h| - 2];
    assert forall k :: 0 <= k < |h| ==> p[k] == h[k];
    assert p[|h|] == '\n' && p[|h| + 1] == '\n' && p[|p| - 1] == line[|line| - 1];
    TrimSpaceId(p);
    OneHeadingAddsNone(p);
  }

  lemma Regroup(x: string, b: string, p: string)
    ensures x + (b + x + p) == (x + b) + x + p
  {
  }

  lemma BothAddNone(b: string, p: string)
    requires !AddsScope(b) && !AddsScope(p) && b != "" && b[|b| - 1] != '\n'
    ensures !AddsScope(b + "\n\n" + p)
  {
    hide Index, TrimRight;
    var a, v := "\n\n" + b, "\n\n" + (b + "\n\n" + p);
    Regroup("\n\n", b, p);
    var i := Index(v, SCOPE_BRIEF_MARKER);
    if i >= 0 {
      NoStraddle(a, p, BRIEF_HEADING, i);
      if i >= |a| { OccursShifted(a, "\n\n" + p, v, SCOPE_BRIEF_MARKER, i); }
    }
  }

  lemma TailAddsNone(text: string, block: string, h: string, policy: string, p: string, b: bool, n: bool)
    requires b ==> TrimSpace(block) != ""
    requires !AddsScope(TrimSpace(block)) && !AddsScope(policy) && TrimSpace(policy) == policy
    ensures !AddsScope(BagTail(text, block, h, policy, p, b, n)) || BagTail(text, block, h, policy, p, b, n) == ""
  {
    hide Index, TrimRight, AddsScope, Contains, HasHeading;
    BlockBreakAddsNone(TrimSpace(block));
    BlockBreakAddsNone(policy);
    if b && Tail(text, block, h) != "" {
      BothAddNone(TrimSpace(block), policy + "\n");
      Assoc(TrimSpace(block) + "\n\n", policy, "\n");
    }
  }

  lemma ReadyIsSafe(doc: Doc, s: InjectSettings, t: string)
    requires SurfaceReady(t, BuildInjectBlock(s))
    ensures SurfaceSafe(t, InjectTail(doc, s, t)) && (InjectTail(doc, s, t) == "" || Marked(t))
  {
    hide Index, TrimRight, AddsScope, Contains, RenderToolPathPolicy, BuildInjectBlock, FirstLine;
    var block := BuildInjectBlock(s);
    var b, n := NeedsBlock(doc, block, FirstLine(block)), NeedsPolicy(doc, TOOL_PATH_HEADING);
    SettingsOpen(s);
    InjectedIsAppend(t, block, FirstLine(block), RenderToolPathPolicy(s), TOOL_PATH_HEADING, b, n);
    PolicyAddsNone(s);
    if !AddsScope(TrimSpace(block)) {
      TailAddsNone(t, block, FirstLine(block), RenderToolPathPolicy(s), TOOL_PATH_HEADING, b, n);
    }
  }

  /** The whole way of a catalog from disk to the model: heal the stamp, merge a live
      brief, splice Bag B. */
  function Pipeline(md5: Digest, doc: Doc, lives: seq<Fetch>, s: InjectSettings): Doc {
    InjectBagB(EnsureScopeBrief(Heal(md5, doc), lives), s)
  }

  lemma EnsureKeeps(md5: Digest, h: Doc, lives: seq<Fetch>, block: string)
    requires StringContent(h)
    requires ComputeContractHash(md5, Rstripped(h)) == ComputeContractHash(md5, h)
    ensures var d := EnsureScopeBrief(h, lives);
            && ComputeContractHash(md5, d) == ComputeContractHash(md5, h)
            && ExtractStampedHash(d) == ExtractStampedHash(h) && StringContent(d)
            && (SurfaceReady(Msg0Text(h), block) ==> SurfaceReady(Msg0Text(d), block))
            && (SurfaceReady(InstrText(h), block) ==> SurfaceReady(InstrText(d), block))
  {
    hide Index, TrimRight, Canonical, SurfaceReady, ExtractScopeBrief, TrimSpace, Rstripped, ExtractStampedHash;
    LiveBriefOpens(lives);
    var brief := FirstBrief(lives);
    if ExtractScopeBrief(h) == "" && brief != "" {
      MergeCanonical(h, brief);
      RewriteStringContent(h, t => MergeText(t, brief), t => MergeText(t, brief));
      StampUntouched(h, MergeScopeBrief(h, brief));
      if SurfaceReady(Msg0Text(h), block) { MergedReady(Msg0Text(h), brief, block); }
      if SurfaceReady(InstrText(h), block) { MergedReady(InstrText(h), brief, block); }
    }
  }

  lemma InjectKeeps(md5: Digest, d: Doc, s: InjectSettings)
    requires StringContent(d)
    requires SurfaceReady(Msg0Text(d), BuildInjectBlock(s)) && SurfaceReady(InstrText(d), BuildInjectBlock(s))
    ensures ComputeContractHash(md5, InjectBagB(d, s)) == ComputeContractHash(md5, d)
  {
    hide Index, TrimRight, Canonical, SurfaceReady, BuildInjectBlock, RenderToolPathPolicy, FirstLine, Contains;
    ReadyIsSafe(d, s, Msg0Text(d));
    ReadyIsSafe(d, s, InstrText(d));
    InjectKeepsCanonical(d, s);
  }

  lemma InjectKeepsPlace(d: Doc, s: InjectSettings)
    ensures ExtractStampedHash(InjectBagB(d, s)) == ExtractStampedHash(d)
  {
    hide Index, TrimRight, BuildInjectBlock, RenderToolPathPolicy, FirstLine, ExtractStampedHash;
    SettingsOpen(s);
    var block := BuildInjectBlock(s);
    InjectIsRewrite(d, block, FirstLine(block), RenderToolPathPolicy(s), TOOL_PATH_HEADING);
    StampUntouched(d, InjectBagB(d, s));
  }

  /** On ready surfaces the merge and Bag B change nothing about the stamp: one that holds
      when the catalog is read holds for what is sent to the model exactly when healing
      keeps it. */
  lemma StampSurvives(md5: Digest, doc: Doc, lives: seq<Fetch>, s: InjectSettings)
    requires StampHolds(md5, doc) && StringContent(doc)
    requires SurfaceReady(Msg0Text(doc), BuildInjectBlock(s)) && SurfaceReady(InstrText(doc), BuildInjectBlock(s))
    ensures StampHolds(md5, Pipeline(md5, doc, lives, s)) <==> HealSafe(md5, doc)
  {
    hide Index, TrimRight, Canonical, SurfaceReady, BuildInjectBlock, Rstrip, Rstripped, TrimSpace, OwnStamp,
      ExtractStampedHash, HealSafe;
    var h := Heal(md5, doc);
    HealKeepsStamp(md5, doc);
    HealSettles(md5, doc);
    RstripReady(Msg0Text(doc), BuildInjectBlock(s));
    RstripReady(InstrText(doc), BuildInjectBlock(s));
    EnsureKeeps(md5, h, lives, BuildInjectBlock(s));
    InjectKeeps(md5, EnsureScopeBrief(h, lives), s);
    InjectKeepsPlace(EnsureScopeBrief(h, lives), s);
  }

  /** On any surfaces, a stamp that healing keeps holds for what is sent to the model
      exactly when Bag B is safe for the merged document, or the digests of the two
      different trees collide. */
  lemma {:induction false} StampSurvivesInject(md5: Digest, doc: Doc, lives: seq<Fetch>, s: InjectSettings)
    requires StampHolds(md5, doc) && StringContent(doc) && HealSafe(md5, doc)
    ensures var d := EnsureScopeBrief(Heal(md5, doc), lives);
      StampHolds(md5, Pipeline(md5, doc, lives, s)) <==>
        InjectSafe(d, s) || md5(Canonical(InjectBagB(d, s))) == md5(Canonical(d))
  {
    hide Index, TrimRight, Canonical, BuildInjectBlock, Rstripped, ExtractStampedHash, HealSafe, InjectSafe, InjectBagB;
    var h := Heal(md5, doc);
    HealKeepsStamp(md5, doc);
    HealSettles(md5, doc);
    EnsureKeeps(md5, h, lives, BuildInjectBlock(s));
    var d := EnsureScopeBrief(h, lives);
    InjectKeepsCanonical(d, s);
    InjectKeepsPlace(d, s);
    SameSum(md5(Canonical(InjectBagB(d, s))), md5(Canonical(d)));
  }
}
