/** What the digest sees of a surface that Bag B text is appended to, and from it: the
    stamp survives healing, the live brief merge and the splice. */
module DigestView {
  import opened Text
  import opened Json
  import opened Contract
  import opened ControlPlane

  /** Every rewrite of a surface has this form. */
  function Append(text: string, tail: string): string {
    TrimRight(text) + "\n\n" + tail
  }

  /** A marker: two line breaks, then a heading line that ends visibly. */
  predicate HeadingLine(line: string) {
    '\n' !in line && line != "" && line[|line| - 1] !in TRAILING_WS
  }

  lemma MarkerStays(text: string, tail: string, line: string)
    requires HeadingLine(line) && Contains(text, "\n\n" + line)
    ensures Index(Append(text, tail), "\n\n" + line) == Index(text, "\n\n" + line) < |TrimRight(text)|
    ensures Append(text, tail)[..Index(text, "\n\n" + line)] == text[..Index(text, "\n\n" + line)]
  {
    hide Index, TrimRight;
    var a, m, s := TrimRight(text), "\n\n" + line, Append(text, tail);
    var i := Index(text, m);
    OccursInTrimmed(text, m, i);
    OccursInPrefix(a, s, m, i);
    var k := Index(s, m);
    NoStraddle(a, tail, line, k);
    if OccursAt(a, m, k) { OccursInPrefix(a, text, m, k); }
    assert s[..i] == a[..i] == text[..i];
  }

  lemma MarkerShift(text: string, tail: string, line: string, i: int)
    requires HeadingLine(line)
    ensures OccursAt("\n\n" + tail, "\n\n" + line, i) ==> OccursAt(Append(text, tail), "\n\n" + line, i + |TrimRight(text)|)
    ensures !Contains(text, "\n\n" + line) && OccursAt(Append(text, tail), "\n\n" + line, i) ==>
              i >= |TrimRight(text)| && OccursAt("\n\n" + tail, "\n\n" + line, i - |TrimRight(text)|)
  {
    hide Index, TrimRight;
    var a, m, s, u := TrimRight(text), "\n\n" + line, Append(text, tail), "\n\n" + tail;
    Assoc(a, "\n\n", tail);
    if OccursAt(u, m, i) { OccursShifted(a, u, s, m, i + |a|); }
    if !Contains(text, m) && OccursAt(s, m, i) {
      NoStraddle(a, tail, line, i);
      if OccursAt(a, m, i) { OccursInPrefix(a, text, m, i); }
      if i >= |a| { OccursShifted(a, u, s, m, i); }
    }
  }

  lemma MarkerAdded(text: string, tail: string, line: string)
    requires HeadingLine(line) && !Contains(text, "\n\n" + line)
    ensures Index(Append(text, tail), "\n\n" + line) == -1 || Index(Append(text, tail), "\n\n" + line) >= |TrimRight(text)|
    ensures Contains(Append(text, tail), "\n\n" + line) <==> Contains("\n\n" + tail, "\n\n" + line)
    ensures Index(Append(text, tail), "\n\n" + line) == |TrimRight(text)| <==> HasPrefix(tail, line)
  {
    hide Index, TrimRight;
    var a, m, s, u := TrimRight(text), "\n\n" + line, Append(text, tail), "\n\n" + tail;
    var k, j := Index(s, m), Index(u, m);
    MarkerShift(text, tail, line, k);
    MarkerShift(text, tail, line, j);
    PrefixOccurs(tail, line);
    MarkerShift(text, tail, line, 0);
    MarkerShift(text, tail, line, |a|);
  }

  lemma PrefixOccurs(tail: string, line: string)
    ensures HasPrefix(tail, line) <==> OccursAt("\n\n" + tail, "\n\n" + line, 0)
  {
    hide Index, TrimRight;
    var u, m := "\n\n" + tail, "\n\n" + line;
    if HasPrefix(tail, line) {
      assert u[..|m|] == m;
    }
    if OccursAt(u, m, 0) {
      assert u[..|m|][2..] == tail[..|line|];
      assert m[2..] == line;
    }
  }

  predicate Marked(text: string) {
    Contains(text, SCOPE_BRIEF_MARKER) || Contains(text, MINI_SCHEMA_MARKER)
  }

  predicate AddsScope(tail: string) {
    Contains("\n\n" + tail, SCOPE_BRIEF_MARKER)
  }

  /** The tail hides itself from the digest: nothing of it is left of the first cut. */
  predicate SelfHiding(tail: string) {
    HasPrefix(tail, BRIEF_HEADING) || (HasPrefix(tail, MINI_HEADING) && !AddsScope(tail))
  }

  /** Cutting at or after the end of the trimmed text keeps at least that text, and
      something visible more unless the cut is exactly there. */
  lemma CutTail(text: string, tail: string, i: int)
    requires tail != "" && tail[0] !in TRAILING_WS
    requires |TrimRight(text)| <= i <= |Append(text, tail)|
    requires i != |TrimRight(text)| ==> i > |TrimRight(text)| + 2
    ensures i == |TrimRight(text)| ==> TrimRight(Append(text, tail)[..i]) == TrimRight(text)
    ensures i != |TrimRight(text)| ==> |TrimRight(Append(text, tail)[..i])| >= |TrimRight(text)| + 3
    ensures i != |TrimRight(text)| ==> TrimRight(text) <= TrimRight(Append(text, tail)[..i])
    ensures i != |TrimRight(text)| ==> TrimRight(Append(text, tail)[..i]) != text
  {
    hide Index, TrimRight;
    var a, s := TrimRight(text), Append(text, tail);
    if i == |a| {
      TrimRightIs(s[..i], a);
      assert s[..i] == a;
    } else {
      var r := TrimRight(s[..i]);
      assert s[|a| + 2] == tail[0];
      assert s[..i][|a| + 2] !in TRAILING_WS;
      assert r[|a| + 2] == tail[0];
      assert |text| > |a| + 2 ==> text[|a| + 2] in TRAILING_WS;
      assert a == s[..|a|] == r[..|a|];
    }
  }

  lemma TailIndex(text: string, tail: string, i: int, line: string)
    requires tail != "" && tail[0] !in TRAILING_WS
    requires '\n' !in line && line != ""
    requires OccursAt(Append(text, tail), "\n\n" + line, i) && i >= |TrimRight(text)|
    ensures i == |TrimRight(text)| || i > |TrimRight(text)| + 2
  {
    hide Index, TrimRight;
    var a, s := TrimRight(text), Append(text, tail);
    CharOf(s, "\n\n" + line, i, 0);
    CharOf(s, "\n\n" + line, i, 1);
    assert s[|a| + 2] == tail[0];
  }

  /** Exactly when appended text leaves the digest's view of a surface alone. */
  predicate SameView(text: string, tail: string) {
    || Contains(text, SCOPE_BRIEF_MARKER)
    || (Contains(text, MINI_SCHEMA_MARKER) && !AddsScope(tail))
    || (!Marked(text) && TrimRight(text) == text && SelfHiding(tail))
  }

  lemma StripAppendScoped(text: string, tail: string)
    requires Contains(text, SCOPE_BRIEF_MARKER)
    ensures StripScopeBrief(Append(text, tail)) == StripScopeBrief(text)
  {
    hide Index, TrimRight;
    MarkerStays(text, tail, BRIEF_HEADING);
  }

  /** The tail brings the first scope marker. */
  lemma StripAppendAddsScope(text: string, tail: string)
    requires tail != "" && tail[0] !in TRAILING_WS
    requires !Contains(text, SCOPE_BRIEF_MARKER) && AddsScope(tail)
    ensures HasPrefix(tail, BRIEF_HEADING) ==> StripScopeBrief(Append(text, tail)) == TrimRight(text)
    ensures !HasPrefix(tail, BRIEF_HEADING) ==> StripScopeBrief(Append(text, tail)) != text
    ensures Contains(text, MINI_SCHEMA_MARKER) ==> StripScopeBrief(Append(text, tail)) != StripScopeBrief(text)
  {
    hide Index, TrimRight;
    AddedScopeCut(text, tail);
    if Contains(text, MINI_SCHEMA_MARKER) {
      MarkerStays(text, tail, MINI_HEADING);
      assert |StripScopeBrief(text)| <= Index(text, MINI_SCHEMA_MARKER);
    }
  }

  lemma AddedScopeCut(text: string, tail: string)
    requires tail != "" && tail[0] !in TRAILING_WS
    requires !Contains(text, SCOPE_BRIEF_MARKER) && AddsScope(tail)
    ensures HasPrefix(tail, BRIEF_HEADING) ==> StripScopeBrief(Append(text, tail)) == TrimRight(text)
    ensures !HasPrefix(tail, BRIEF_HEADING) ==> StripScopeBrief(Append(text, tail)) != text
    ensures |StripScopeBrief(Append(text, tail))| >= |TrimRight(text)|
  {
    hide Index, TrimRight;
    MarkerAdded(text, tail, BRIEF_HEADING);
    var i := Index(Append(text, tail), SCOPE_BRIEF_MARKER);
    TailIndex(text, tail, i, BRIEF_HEADING);
    CutTail(text, tail, i);
  }

  lemma StripAppendMini(text: string, tail: string)
    requires !Contains(text, SCOPE_BRIEF_MARKER) && !AddsScope(tail)
    requires Contains(text, MINI_SCHEMA_MARKER)
    ensures StripScopeBrief(Append(text, tail)) == StripScopeBrief(text)
  {
    hide Index, TrimRight;
    MarkerAdded(text, tail, BRIEF_HEADING);
    MarkerStays(text, tail, MINI_HEADING);
  }

  lemma StripAppendPlain(text: string, tail: string)
    requires tail != "" && tail[0] !in TRAILING_WS
    requires !Marked(text) && !AddsScope(tail)
    ensures HasPrefix(tail, MINI_HEADING) ==> StripScopeBrief(Append(text, tail)) == TrimRight(text)
    ensures !HasPrefix(tail, MINI_HEADING) ==> StripScopeBrief(Append(text, tail)) != text
  {
    hide Index, TrimRight;
    var a, s := TrimRight(text), Append(text, tail);
    MarkerAdded(text, tail, BRIEF_HEADING);
    MarkerAdded(text, tail, MINI_HEADING);
    var j := Index(s, MINI_SCHEMA_MARKER);
    if j >= 0 {
      TailIndex(text, tail, j, MINI_HEADING);
      CutTail(text, tail, j);
    } else {
      assert s[|a| + 2] == tail[0];
      assert |text| > |a| + 2 ==> text[|a| + 2] in TRAILING_WS;
    }
  }

  lemma BriefAddsScope(tail: string)
    requires HasPrefix(tail, BRIEF_HEADING)
    ensures AddsScope(tail) && !HasPrefix(tail, MINI_HEADING)
  {
    hide Index, TrimRight;
    PrefixOccurs(tail, BRIEF_HEADING);
    assert tail[3] == 'S';
  }

  lemma StripAppend(text: string, tail: string)
    requires tail != "" && tail[0] !in TRAILING_WS
    ensures StripScopeBrief(Append(text, tail)) == StripScopeBrief(text) <==> SameView(text, tail)
    ensures !Marked(text) && SelfHiding(tail) ==> StripScopeBrief(Append(text, tail)) == TrimRight(text)
  {
    hide Index, TrimRight;
    if HasPrefix(tail, BRIEF_HEADING) { BriefAddsScope(tail); }
    if Contains(text, SCOPE_BRIEF_MARKER) {
      StripAppendScoped(text, tail);
    } else if AddsScope(tail) {
      StripAppendAddsScope(text, tail);
    } else if Contains(text, MINI_SCHEMA_MARKER) {
      StripAppendMini(text, tail);
    } else {
      StripAppendPlain(text, tail);
    }
  }

  /** A marker of a text that starts and ends before a cut is still the first one of the
      text trimmed back from the cut; no marker appears that was not there. */
  lemma MarkerOfCut(s: string, i: nat, line: string)
    requires i <= |s| && HeadingLine(line)
    ensures var m := "\n\n" + line;
            Index(TrimRight(s[..i]), m) == if 0 <= Index(s, m) <= i - |m| then Index(s, m) else -1
  {
    hide Index, TrimRight;
    var c, m := TrimRight(s[..i]), "\n\n" + line;
    var k, j := Index(c, m), Index(s, m);
    if k >= 0 { OccursInPrefix(c, s, m, k); }
    if 0 <= j <= i - |m| {
      assert s[..i][j..j + |m|] == s[j..j + |m|];
      OccursInTrimmed(s[..i], m, j);
    }
  }

  /** What the digest sees of a system message's content. */
  function SystemView(s: string): string {
    StripScopeBrief(StripScopeBrief(s))
  }

  function FirstMarker(s: string): int {
    var i, j := Index(s, SCOPE_BRIEF_MARKER), Index(s, MINI_SCHEMA_MARKER);
    if i < 0 || 0 <= j < i then j else i
  }

  /** Two markers of which neither opens at the other's place do not overlap. */
  lemma MarkersApart(s: string, i: int, j: int)
    requires OccursAt(s, SCOPE_BRIEF_MARKER, i) && OccursAt(s, MINI_SCHEMA_MARKER, j)
    requires j < i
    ensures j <= i - |MINI_SCHEMA_MARKER|
    ensures j <= |TrimRight(s[..i])|
  {
    hide Index, TrimRight;
    if i < j + |MINI_SCHEMA_MARKER| {
      CharOf(s, SCOPE_BRIEF_MARKER, i, 0);
      CharOf(s, SCOPE_BRIEF_MARKER, i, 1);
      CharOf(s, MINI_SCHEMA_MARKER, j, i - j);
      CharOf(s, MINI_SCHEMA_MARKER, j, 2);
    }
    assert s[..i][j..j + |MINI_SCHEMA_MARKER|] == s[j..j + |MINI_SCHEMA_MARKER|];
    OccursInTrimmed(s[..i], MINI_SCHEMA_MARKER, j);
  }

  /** A system message is cut at the earlier of its two markers. */
  lemma SystemViewCases(s: string)
    ensures SystemView(s) == if FirstMarker(s) >= 0 then TrimRight(s[..FirstMarker(s)]) else s
  {
    hide Index, TrimRight;
    var i, j := Index(s, SCOPE_BRIEF_MARKER), Index(s, MINI_SCHEMA_MARKER);
    var cut := if i >= 0 then i else if j >= 0 then j else |s|;
    if i >= 0 || j >= 0 {
      MarkerOfCut(s, cut, BRIEF_HEADING);
      MarkerOfCut(s, cut, MINI_HEADING);
      if 0 <= j < i {
        MarkersApart(s, i, j);
        assert TrimRight(s[..i])[..j] == s[..j];
      }
    }
  }

  predicate SameSystemView(text: string, tail: string) {
    || Marked(text)
    || (TrimRight(text) == text && (HasPrefix(tail, BRIEF_HEADING) || HasPrefix(tail, MINI_HEADING)))
  }

  lemma FirstMarkerStays(text: string, tail: string)
    requires Marked(text)
    ensures FirstMarker(Append(text, tail)) == FirstMarker(text) >= 0
    ensures Append(text, tail)[..FirstMarker(text)] == text[..FirstMarker(text)]
  {
    hide Index, TrimRight;
    if Contains(text, SCOPE_BRIEF_MARKER) { MarkerStays(text, tail, BRIEF_HEADING); }
    else { MarkerAdded(text, tail, BRIEF_HEADING); }
    if Contains(text, MINI_SCHEMA_MARKER) { MarkerStays(text, tail, MINI_HEADING); }
    else { MarkerAdded(text, tail, MINI_HEADING); }
  }

  lemma FirstMarkerAdded(text: string, tail: string)
    requires tail != "" && tail[0] !in TRAILING_WS
    requires !Marked(text)
    ensures var k := FirstMarker(Append(text, tail));
            k == -1 || k == |TrimRight(text)| || k > |TrimRight(text)| + 2
    ensures FirstMarker(Append(text, tail)) == |TrimRight(text)| <==>
              (HasPrefix(tail, BRIEF_HEADING) || HasPrefix(tail, MINI_HEADING))
  {
    hide Index, TrimRight;
    var s := Append(text, tail);
    var i, j := Index(s, SCOPE_BRIEF_MARKER), Index(s, MINI_SCHEMA_MARKER);
    MarkerAdded(text, tail, BRIEF_HEADING);
    MarkerAdded(text, tail, MINI_HEADING);
    if i >= 0 { TailIndex(text, tail, i, BRIEF_HEADING); }
    if j >= 0 { TailIndex(text, tail, j, MINI_HEADING); }
  }

  lemma SystemAppend(text: string, tail: string)
    requires tail != "" && tail[0] !in TRAILING_WS
    ensures SystemView(Append(text, tail)) == SystemView(text) <==> SameSystemView(text, tail)
    ensures !Marked(text) && SameSystemView(TrimRight(text), tail) ==> SystemView(Append(text, tail)) == TrimRight(text)
  {
    hide Index, TrimRight;
    var a, s := TrimRight(text), Append(text, tail);
    SystemViewCases(text);
    SystemViewCases(s);
    if Marked(text) {
      FirstMarkerStays(text, tail);
    } else {
      FirstMarkerAdded(text, tail);
      TrimmedUnmarked(text);
      var k := FirstMarker(s);
      if k >= 0 {
        CutTail(text, tail, k);
      } else {
        assert s[|a| + 2] == tail[0];
        assert |text| > |a| + 2 ==> text[|a| + 2] in TRAILING_WS;
      }
    }
  }

  lemma TrimmedUnmarked(text: string)
    requires !Marked(text)
    ensures !Marked(TrimRight(text)) && TrimRight(TrimRight(text)) == TrimRight(text)
  {
    hide Index, TrimRight;
    var a := TrimRight(text);
    TrimRightIs(a, a);
    var i, j := Index(a, SCOPE_BRIEF_MARKER), Index(a, MINI_SCHEMA_MARKER);
    if i >= 0 { OccursInPrefix(a, text, SCOPE_BRIEF_MARKER, i); }
    if j >= 0 { OccursInPrefix(a, text, MINI_SCHEMA_MARKER, j); }
  }

  /** One value as the digest sees it. */
  function Canon(v: Value): (r: Value)
    ensures r.Obj? <==> v.Obj?
    ensures r.Arr? <==> v.Arr?
  {
    Canonicalize(StripForHash(v))
  }

  predicate IsSystem(m: Doc) {
    StripScopeBrief(AsString(m, "role")) == "system"
  }

  /** A string field of an object as the digest sees it. */
  function FieldView(m: Doc, k: string, s: string): string {
    if k == "content" && IsSystem(m) then SystemView(s) else StripScopeBrief(s)
  }

  lemma KeysKept()
    ensures !HashExcluded("messages") && !HashExcluded("instructions") && !HashExcluded("content")
    ensures !HashExcluded("system_prompt") && !HashExcluded("role")
    ensures HashExcluded("contract") && HashExcluded("_hash")
  {
    hide Index, TrimRight;
    assert "messages"[0] == 'm' && "instructions"[0] == 'i' && "content"[0] == 'c';
    assert "system_prompt"[0] == 's' && "role"[0] == 'r';
  }

  function Kept(m: Doc): Doc {
    map k | k in m && !HashExcluded(k) :: StripForHash(m[k])
  }

  lemma RoleKept(m: Doc)
    ensures AsString(Kept(m), "role") == StripScopeBrief(AsString(m, "role"))
  {
    hide Index, TrimRight;
    KeysKept();
    assert "role" in Kept(m) <==> "role" in m;
    assert StripScopeBrief("") == "";
  }

  function CanonField(m: Doc, k: string): Value
    requires k in m
  {
    if m[k].Str? then Str(FieldView(m, k, m[k].s)) else Canon(m[k])
  }

  lemma CanonObj(m: Doc)
    ensures Canon(Obj(m)) == Obj(map k | k in m && !HashExcluded(k) :: CanonField(m, k))
  {
    hide Index, TrimRight, HashExcluded, StripScopeBrief;
    RoleKept(m);
    var c := Canon(Obj(m)).fields;
    assert StripForHash(Obj(m)) == Obj(Kept(m));
    forall k | k in m && !HashExcluded(k) ensures k in c && c[k] == CanonField(m, k) {
      assert Kept(m)[k] == StripForHash(m[k]);
    }
    assert c == map k | k in m && !HashExcluded(k) :: CanonField(m, k);
  }

  /** Setting a field and then taking the digest's view is the same as setting the view of
      that field. */
  lemma CanonSet(m: Doc, k: string, v: Value)
    requires !HashExcluded(k) && k != "role"
    ensures Canon(Obj(m[k := v])) == Obj(Canon(Obj(m)).fields[k := CanonField(m[k := v], k)])
    ensures v.Str? ==> CanonField(m[k := v], k) == Str(FieldView(m, k, v.s))
    ensures !v.Str? ==> CanonField(m[k := v], k) == Canon(v)
  {
    hide Index, TrimRight, HashExcluded, StripScopeBrief, SystemView, Canon;
    var n := m[k := v];
    CanonObj(m);
    CanonObj(n);
    assert IsSystem(n) == IsSystem(m);
    forall x | x in m && x != k ensures CanonField(n, x) == CanonField(m, x) {}
  }

  lemma CanonArr(items: seq<Value>, n: nat, v: Value)
    requires n < |items|
    ensures Canon(Arr(items)).items[n] == Canon(items[n])
    ensures |Canon(Arr(items)).items| == |items|
    ensures Canon(Arr(items[n := v])).items == Canon(Arr(items)).items[n := Canon(v)]
  {
  }

  /** The first message's content as the digest sees it. */
  function View0(doc: Doc, s: string): string
    requires HasMsg0(doc)
  {
    FieldView(Msg0(doc), "content", s)
  }

  lemma CanonicalHasMsg0(doc: Doc)
    requires HasMsg0(doc)
    ensures HasMsg0(Canonical(doc)) && Msg0(Canonical(doc)) == Canon(Obj(Msg0(doc))).fields
  {
    hide Index, TrimRight;
    KeysKept();
    CanonObj(doc);
    CanonArr(doc["messages"].items, 0, doc["messages"].items[0]);
  }

  lemma CanonicalHasInstr(doc: Doc)
    requires HasInstr(doc)
    ensures HasInstr(Canonical(doc))
    ensures Canonical(doc)["instructions"] == Canon(doc["instructions"])
  {
    hide Index, TrimRight;
    KeysKept();
    CanonObj(doc);
  }

  lemma CanonicalSetMsg0(doc: Doc, s: string)
    requires HasMsg0(doc)
    ensures HasMsg0(Canonical(doc))
    ensures Canonical(SetMsg0(doc, s)) == SetMsg0(Canonical(doc), View0(doc, s))
  {
    hide Index, TrimRight;
    CanonicalHasMsg0(doc);
    KeysKept();
    var items := doc["messages"].items;
    var item := Obj(Msg0(doc)["content" := Str(s)]);
    CanonSet(Msg0(doc), "content", Str(s));
    CanonArr(items, 0, item);
    CanonSet(doc, "messages", Arr(items[0 := item]));
    CanonObj(doc);
  }

  lemma CanonicalSetInstr(doc: Doc, s: string)
    requires HasInstr(doc)
    ensures HasInstr(Canonical(doc))
    ensures Canonical(SetInstr(doc, s)) == SetInstr(Canonical(doc), StripScopeBrief(s))
  {
    hide Index, TrimRight;
    CanonicalHasInstr(doc);
    KeysKept();
    CanonSet(doc["instructions"].fields, "system_prompt", Str(s));
    CanonSet(doc, "instructions", SetInstr(doc, s)["instructions"]);
  }

  /** Exactly when a rewrite of the surfaces leaves the digested tree alone. */
  lemma CanonicalRewrite(doc: Doc, f: string -> string, g: string -> string)
    requires StringContent(doc)
    ensures Canonical(Rewrite(doc, f, g)) == Canonical(doc) <==>
              ((HasMsg0(doc) ==> View0(doc, f(Msg0Text(doc))) == View0(doc, Msg0Text(doc)))
               && (InstrText(doc) != "" ==> StripScopeBrief(g(InstrText(doc))) == StripScopeBrief(InstrText(doc))))
  {
    hide Index, TrimRight;
    var d := if HasMsg0(doc) then SetMsg0(doc, f(Msg0Text(doc))) else doc;
    var e := if HasMsg0(doc) then SetMsg0(doc, Msg0Text(doc)) else doc;
    if HasMsg0(doc) {
      SetMsg0Same(doc);
      CanonicalSetMsg0(doc, f(Msg0Text(doc)));
      CanonicalSetMsg0(doc, Msg0Text(doc));
    }
    if InstrText(doc) != "" {
      SetInstrSame(doc);
      CanonicalSetInstr(d, g(InstrText(doc)));
      CanonicalSetInstr(doc, InstrText(doc));
      assert InstrText(Canonical(Rewrite(doc, f, g))) == StripScopeBrief(g(InstrText(doc)));
      assert InstrText(Canonical(doc)) == StripScopeBrief(InstrText(doc));
    }
  }

  /** Two rewrites that show the digest the same surfaces give the same tree. */
  lemma CanonicalRewrites(doc: Doc, f: string -> string, g: string -> string)
    requires HasMsg0(doc) ==> View0(doc, f(Msg0Text(doc))) == View0(doc, g(Msg0Text(doc)))
    requires StripScopeBrief(f(InstrText(doc))) == StripScopeBrief(g(InstrText(doc)))
    ensures Canonical(Rewrite(doc, f, f)) == Canonical(Rewrite(doc, g, g))
  {
    hide Index, TrimRight, Canonical, StripScopeBrief;
    var t0, t1 := Msg0Text(doc), InstrText(doc);
    var d := if HasMsg0(doc) then SetMsg0(doc, f(t0)) else doc;
    var e := if HasMsg0(doc) then SetMsg0(doc, g(t0)) else doc;
    if HasMsg0(doc) {
      CanonicalSetMsg0(doc, f(t0));
      CanonicalSetMsg0(doc, g(t0));
    }
    if t1 != "" {
      CanonicalSetInstr(d, f(t1));
      CanonicalSetInstr(e, g(t1));
    }
  }
}
