/** The tool trail on the system message (domain/tool_trail.go). */
module ToolTrail {
  import opened Text
  import opened Json
  import opened ControlPlane

  const TRAIL_HEADING := "ZEUS_TOOL_TRAIL (this turn):"

  /** One message of the bag; the maps of a Go message list are shared by reference. */
  class Message {
    var fields: Doc

    constructor (fields: Doc)
      ensures this.fields == fields
    {
      this.fields := fields;
    }
  }

  predicate AsBool(e: Doc, key: string) {
    key in e && match e[key]
                case Bool(b) => b
                case Str(s) => s in ["1", "t", "T", "TRUE", "true", "True"]
                case _ => false
  }

  /** What counts as true in a trail entry. */
  lemma {:induction false} TrueValues(e: Doc, key: string)
    ensures AsBool(e, key) <==>
      key in e && e[key] in {Bool(true), Str("1"), Str("t"), Str("T"), Str("TRUE"), Str("true"), Str("True")}
  {
    var texts := ["1", "t", "T", "TRUE", "true", "True"];
    assert texts[0] == "1" && texts[1] == "t" && texts[2] == "T" && texts[3] == "TRUE" && texts[4] == "true" && texts[5] == "True";
  }

  /** One line of the trail; `sprint` formats the sequence number. */
  function TrailLine(e: Doc, sprint: Value -> string): string {
    var n := if "seq" in e && !e["seq"].Null? then sprint(e["seq"]) else "?";
    var l0 := if AsString(e, "l0") != "" then AsString(e, "l0")
              else if AsString(e, "verb") != "" then AsString(e, "verb") else "hop";
    var rid := AsString(e, "req_id");
    var klass := AsString(e, "error_class");
    var hint := AsString(e, "hint");
    Join([n + ".", l0, if AsBool(e, "ok") then "ok" else "fail"]
         + (if rid == "" then [] else ["req_id=" + rid])
         + (if klass == "" then [] else [klass])
         + (if hint == "" then [] else ["hint=" + hint]), " ")
  }

  function TrailLines(entries: seq<Doc>, sprint: Value -> string): seq<string> {
    seq(|entries|, i requires 0 <= i < |entries| => TrailLine(entries[i], sprint))
  }

  function Shown(entries: seq<Doc>, maxEntries: int): seq<Doc> {
    var m := if maxEntries < 0 then 0 else maxEntries;
    if |entries| > m then entries[..m] else entries
  }

  /** The parts of a hop record that the trail reads. */
  datatype Hop = Hop(reqId: string, name: string, status: int, ok: bool, error: string, url: string, snippet: string)

  function Put(present: bool, key: string, v: Value): Doc {
    if present then map[key := v] else map[]
  }

  /** ErrorClassFor; `timedOut` tells whether an error text speaks of a timeout. */
  function ErrorClass(h: Hop, timedOut: string -> bool): string {
    if h.ok then ""
    else if h.status == 409 then "contract_mismatch"
    else if h.status == 429 || h.status == 503 || timedOut(h.error) then "retryable_later"
    else if 400 <= h.status < 500 then "do_not_retry_same_args"
    else "zeus_error"
  }

  function TrailHint(h: Hop, empty: bool, klass: string): string {
    if h.ok then (if empty then "empty" else "success")
    else if klass == "contract_mismatch" || klass == "do_not_retry_same_args" then "do_not_retry_same_args"
    else if klass == "retryable_later" then "retryable_later"
    else ""
  }

  /** What the trail advises, by status and error. */
  lemma {:induction false} HintSays(h: Hop, empty: bool, timedOut: string -> bool)
    ensures var late := h.status != 409 && (h.status == 429 || h.status == 503 || timedOut(h.error));
      var hint := TrailHint(h, empty, ErrorClass(h, timedOut));
      && (hint == "empty" <==> h.ok && empty)
      && (hint == "success" <==> h.ok && !empty)
      && (hint == "retryable_later" <==> !h.ok && late)
      && (hint == "do_not_retry_same_args" <==> !h.ok && !late && 400 <= h.status <= 499)
      && (hint == "" <==> !h.ok && !late && (h.status < 400 || h.status > 499))
      && (ErrorClass(h, timedOut) == "contract_mismatch" <==> !h.ok && h.status == 409)
      && (ErrorClass(h, timedOut) == "" <==> h.ok)
      && (hint == "" ==> ErrorClass(h, timedOut) == "zeus_error")
  {
    assert |"empty"| == 5 && |"success"| == 7 && |"retryable_later"| == 15 && |"do_not_retry_same_args"| == 22;
    assert |"contract_mismatch"| == 17 && |"zeus_error"| == 10;
  }

  function TrailEntry(h: Hop, n: nat, empty: bool, timedOut: string -> bool): (e: Doc)
    ensures "seq" in e && e["seq"] == Num(n as real)
  {
    var verb := TrimSpace(h.name);
    var klass := ErrorClass(h, timedOut);
    var hint := TrailHint(h, empty, klass);
    WhatToSay(h, verb, klass, hint) + map["ok" := Bool(h.ok), "seq" := Num(n as real)]
  }

  function WhatToSay(h: Hop, verb: string, klass: string, hint: string): Doc {
    WhatWasCalled(h, verb) + Put(klass != "", "error_class", Str(klass)) + Put(hint != "", "hint", Str(hint))
    + Put(h.url != "", "path", Str(h.url))
  }

  function WhatWasCalled(h: Hop, verb: string): Doc {
    Put(verb != "", "verb", Str(verb)) + Put(verb != "", "l0", Str("zeus." + verb))
    + Put(h.status != 0, "http_status", Num(h.status as real)) + Put(h.reqId != "", "req_id", Str(h.reqId))
  }

  /** TrailEntryFromHop, key by key. */
  method TrailEntryFromHop(h: Hop, n: nat, empty: bool, timedOut: string -> bool) returns (e: Doc)
    ensures e == TrailEntry(h, n, empty, timedOut)
  {
    hide TrimSpace, ErrorClass, TrailHint, Put, WhatWasCalled, WhatToSay;
    var klass := ErrorClass(h, timedOut);
    e := Say(h, TrimSpace(h.name), klass, TrailHint(h, empty, klass));
    e := e + map["ok" := Bool(h.ok), "seq" := Num(n as real)];
  }

  method Say(h: Hop, verb: string, klass: string, hint: string) returns (e: Doc)
    ensures e == WhatToSay(h, verb, klass, hint)
  {
    hide Put, WhatWasCalled;
    e := SayCall(h, verb);
    e := SetIf(e, klass != "", "error_class", Str(klass));
    e := SetIf(e, hint != "", "hint", Str(hint));
    e := SetIf(e, h.url != "", "path", Str(h.url));
  }

  method SayCall(h: Hop, verb: string) returns (e: Doc)
    ensures e == WhatWasCalled(h, verb)
  {
    hide Put;
    e := SetIf(map[], verb != "", "verb", Str(verb));
    e := SetIf(e, verb != "", "l0", Str("zeus." + verb));
    e := SetIf(e, h.status != 0, "http_status", Num(h.status as real));
    e := SetIf(e, h.reqId != "", "req_id", Str(h.reqId));
  }

  method SetIf(e: Doc, present: bool, key: string, v: Value) returns (r: Doc)
    ensures r == e + Put(present, key, v) && (e == map[] ==> r == Put(present, key, v))
  {
    r := e;
    if present { r := r[key := v]; }
  }

  /** One line of the trail, bit by bit. */
  method TrailBits(e: Doc, sprint: Value -> string) returns (line: string)
    ensures line == TrailLine(e, sprint)
  {
    hide AsBool, Join;
    var number := "?";
    if "seq" in e && e["seq"] != Null { number := sprint(e["seq"]); }
    var l0 := AsString(e, "l0");
    if l0 == "" { l0 := AsString(e, "verb"); }
    if l0 == "" { l0 := "hop"; }
    var bits := [number + ".", l0];
    if AsBool(e, "ok") { bits := bits + ["ok"]; } else { bits := bits + ["fail"]; }
    ghost var head := bits;
    assert head == [number + ".", l0, if AsBool(e, "ok") then "ok" else "fail"];
    var rid := AsString(e, "req_id");
    if rid != "" { bits := bits + ["req_id=" + rid]; }
    assert bits == head + (if rid == "" then [] else ["req_id=" + rid]);
    var klass := AsString(e, "error_class");
    ghost var before := bits;
    if klass != "" { bits := bits + [klass]; }
    assert bits == before + (if klass == "" then [] else [klass]);
    var hint := AsString(e, "hint");
    before := bits;
    if hint != "" { bits := bits + ["hint=" + hint]; }
    assert bits == before + (if hint == "" then [] else ["hint=" + hint]);
    line := Join(bits, " ");
  }

  /** RenderTrailInject */
  method RenderTrailInjectLoop(entries: seq<Doc>, maxEntries: int, sprint: Value -> string) returns (r: string)
    ensures r == RenderTrailInject(entries, maxEntries, sprint)
  {
    var m := if maxEntries < 0 then 0 else maxEntries;
    var es := if |entries| > m then entries[..m] else entries;
    if |es| == 0 { return ""; }
    var lines := [TRAIL_HEADING];
    for k := 0 to |es|
      invariant lines == [TRAIL_HEADING] + TrailLines(es[..k], sprint)
    {
      assert es[..k + 1] == es[..k] + [es[k]];
      var line := TrailBits(es[k], sprint);
      lines := lines + [line];
    }
    assert es[..|es|] == es;
    r := Join(lines, "\n");
  }

  function RenderTrailInject(entries: seq<Doc>, maxEntries: int, sprint: Value -> string): string {
    var es := Shown(entries, maxEntries);
    if es == [] then "" else Join([TRAIL_HEADING] + TrailLines(es, sprint), "\n")
  }

  /** The text that a trail replaces: everything before an earlier trail. */
  function BeforeTrail(content: string): string {
    if Contains(content, TRAIL_HEADING) then content[..Index(content, TRAIL_HEADING)] else content
  }

  function UpsertText(content: string, snippet: string): string {
    if snippet == "" then content else TrimRight(BeforeTrail(content)) + "\n\n" + snippet
  }

  /** UpsertTrailOnSystem writes through the map of the first message, and only when it
      is a system message. */
  method UpsertTrailOnSystem(messages: seq<Message?>, snippet: string)
    modifies if |messages| > 0 && messages[0] != null then {messages[0]} else {}
    ensures |messages| > 0 && messages[0] != null ==>
      messages[0].fields ==
        if snippet != "" && AsString(old(messages[0].fields), "role") == "system"
        then old(messages[0].fields)["content" := Str(UpsertText(AsString(old(messages[0].fields), "content"), snippet))]
        else old(messages[0].fields)
  {
    if snippet == "" || |messages| == 0 { return; }
    var sys := messages[0];
    if sys == null { return; }
    if AsString(sys.fields, "role") != "system" { return; }
    var content := AsString(sys.fields, "content");
    if Contains(content, TRAIL_HEADING) {
      var head := content[..Index(content, TRAIL_HEADING)];
      sys.fields := sys.fields["content" := Str(TrimRight(head) + "\n\n" + snippet)];
      return;
    }
    sys.fields := sys.fields["content" := Str(TrimRight(content) + "\n\n" + snippet)];
  }

  /** A rendered trail is empty, or it opens with the heading. */
  lemma {:induction false} RenderedIsHeaded(entries: seq<Doc>, maxEntries: int, sprint: Value -> string)
    ensures RenderTrailInject(entries, maxEntries, sprint) == "" <==> entries == [] || maxEntries <= 0
    ensures RenderTrailInject(entries, maxEntries, sprint) != "" ==>
      HasPrefix(RenderTrailInject(entries, maxEntries, sprint), TRAIL_HEADING)
  {
    var es := Shown(entries, maxEntries);
    if es != [] {
      var lines := TrailLines(es, sprint);
      assert ([TRAIL_HEADING] + lines)[1..] == lines;
    }
  }

  lemma HeadlessPrefix(s: string, m: string)
    requires m != ""
    ensures !Contains(if Contains(s, m) then s[..Index(s, m)] else s, m)
  {
    hide TrimRight;
    if Contains(s, m) {
      var k := Index(s, m);
      var p := s[..k];
      forall i ensures !OccursAt(p, m, i) {
        if OccursAt(p, m, i) {
          OccursInPrefix(p, s, m, i);
        }
      }
    }
  }

  lemma TrimmedHeadless(s: string, m: string)
    requires !Contains(s, m)
    ensures !Contains(TrimRight(s), m)
  {
    var t := TrimRight(s);
    forall i ensures !OccursAt(t, m, i) {
      if OccursAt(t, m, i) {
        OccursInPrefix(t, s, m, i);
      }
    }
  }

  /** After text without the marker, a marker-headed snippet is where the marker first
      occurs. */
  lemma FirstAfter(h: string, a: string, m: string)
    requires m != "" && '\n' !in m && !Contains(h, m) && HasPrefix(a, m)
    ensures Index(h + "\n\n" + a, m) == |h| + 2
  {
    hide TrimRight, Index;
    var s := h + "\n\n" + a;
    assert s[|h| + 2..|h| + 2 + |m|] == m;
    assert OccursAt(s, m, |h| + 2);
    ContainsAt(s, m, |h| + 2);
    var i := Index(s, m);
    NoStraddleLine(h, a, m, i);
    if OccursAt(h, m, i) {
      ContainsAt(h, m, i);
    }
  }

  /** Upserting a trail and then another one leaves what upserting the second one alone
      would have left, on any content (with or without a trail of its own). */
  lemma {:induction false} UpsertReplaces(c: string, a: string, b: string)
    requires HasPrefix(a, TRAIL_HEADING) && b != ""
    ensures UpsertText(UpsertText(c, a), b) == UpsertText(c, b)
  {
    hide Index;
    var before := BeforeTrail(c);
    HeadlessPrefix(c, TRAIL_HEADING);
    TrimmedHeadless(before, TRAIL_HEADING);
    var h := TrimRight(before);
    FirstAfter(h, a, TRAIL_HEADING);
    var s := h + "\n\n" + a;
    assert s[..|h| + 2] == h + "\n\n";
    TrimRightIs(h + "\n\n", h);
  }

  /** The content after each of a run of rounds. */
  function AfterRounds(c: string, snippets: seq<string>): string
    decreases |snippets|
  {
    if snippets == [] then c else UpsertText(AfterRounds(c, snippets[..|snippets| - 1]), snippets[|snippets| - 1])
  }

  /** A whole turn: however many rounds spliced a trail, the system text is the original
      one with the last trail only, and rounds without a trail change nothing. */
  lemma {:induction false} OnlyLastTrail(c: string, snippets: seq<string>, last: nat)
    requires forall i :: 0 <= i < |snippets| ==> snippets[i] == "" || HasPrefix(snippets[i], TRAIL_HEADING)
    requires last < |snippets| && snippets[last] != ""
    requires forall i :: last < i < |snippets| ==> snippets[i] == ""
    ensures AfterRounds(c, snippets) == UpsertText(c, snippets[last])
    decreases |snippets|
  {
    hide UpsertText;
    var front := snippets[..|snippets| - 1];
    if last < |front| {
      OnlyLastTrail(c, front, last);
      NothingToUpsert(AfterRounds(c, front));
    } else {
      LastUpsert(c, front, snippets[last]);
    }
  }

  lemma NothingToUpsert(c: string)
    ensures UpsertText(c, "") == c
  {
  }

  lemma {:induction false} LastUpsert(c: string, front: seq<string>, b: string)
    requires forall i :: 0 <= i < |front| ==> front[i] == "" || HasPrefix(front[i], TRAIL_HEADING)
    requires b != ""
    ensures UpsertText(AfterRounds(c, front), b) == UpsertText(c, b)
    decreases |front|
  {
    hide UpsertText;
    if front != [] {
      var n := |front| - 1;
      LastUpsert(c, front[..n], b);
      if front[n] == "" {
        NothingToUpsert(AfterRounds(c, front[..n]));
      } else {
        UpsertReplaces(AfterRounds(c, front[..n]), front[n], b);
      }
    }
  }
}
