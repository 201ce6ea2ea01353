/** Decoded JSON documents, and the two prompt surfaces every rewrite of a chat
    request goes through: the content of its first message and the system prompt of
    its instructions. */
module Json {

  datatype Value =
    | Null
    | Bool(b: bool)
    | Num(n: real)
    | Str(s: string)
    | Arr(items: seq<Value>)
    | Obj(fields: map<string, Value>)

  type Doc = map<string, Value>

  /** Conversion of a float to an integer, toward zero. */
  function Trunc(n: real): int { if n >= 0.0 then n.Floor else -((-n).Floor) }

  lemma {:induction false} TruncTowardZero(n: real)
    ensures n >= 0.0 ==> Trunc(n) as real <= n < Trunc(n) as real + 1.0
    ensures n <= 0.0 ==> Trunc(n) as real - 1.0 < n <= Trunc(n) as real
  {
  }

  /** The string under a key; the empty string when absent or of another type. */
  function AsString(m: Doc, key: string): string {
    if key in m && m[key].Str? then m[key].s else ""
  }

  predicate HasMsg0(doc: Doc) {
    "messages" in doc && doc["messages"].Arr? && |doc["messages"].items| > 0 && doc["messages"].items[0].Obj?
  }

  function Msg0(doc: Doc): Doc
    requires HasMsg0(doc)
  {
    doc["messages"].items[0].fields
  }

  function Msg0Text(doc: Doc): string {
    if HasMsg0(doc) then AsString(Msg0(doc), "content") else ""
  }

  function SetMsg0(doc: Doc, text: string): (r: Doc)
    requires HasMsg0(doc)
    ensures HasMsg0(r) && Msg0Text(r) == text && InstrText(r) == InstrText(doc)
    ensures HasInstr(r) == HasInstr(doc)
    ensures forall k :: k != "messages" ==> (k in r <==> k in doc) && (k in doc ==> r[k] == doc[k])
  {
    var items := doc["messages"].items;
    doc["messages" := Arr(items[0 := Obj(Msg0(doc)["content" := Str(text)])])]
  }

  predicate HasInstr(doc: Doc) {
    "instructions" in doc && doc["instructions"].Obj?
  }

  function InstrText(doc: Doc): string {
    if HasInstr(doc) then AsString(doc["instructions"].fields, "system_prompt") else ""
  }

  function SetInstr(doc: Doc, text: string): (r: Doc)
    requires HasInstr(doc)
    ensures HasInstr(r) && InstrText(r) == text && Msg0Text(r) == Msg0Text(doc)
    ensures HasMsg0(r) == HasMsg0(doc)
    ensures forall k :: k != "instructions" ==> (k in r <==> k in doc) && (k in doc ==> r[k] == doc[k])
  {
    doc["instructions" := Obj(doc["instructions"].fields["system_prompt" := Str(text)])]
  }

  /** The first message, when it is an object, carries a string as its content. */
  predicate StringContent(doc: Doc) {
    HasMsg0(doc) ==> "content" in Msg0(doc) && Msg0(doc)["content"].Str?
  }

  /** What both surfaces become under f (message content) and g (system prompt).  A
      system prompt that is missing, empty or no string is not touched. */
  function Rewrite(doc: Doc, f: string -> string, g: string -> string): (r: Doc)
    ensures HasMsg0(r) == HasMsg0(doc) && HasInstr(r) == HasInstr(doc)
    ensures HasMsg0(doc) ==> Msg0Text(r) == f(Msg0Text(doc))
    ensures InstrText(r) == if InstrText(doc) == "" then "" else g(InstrText(doc))
    ensures forall k :: k !in {"messages", "instructions"} ==> (k in r <==> k in doc) && (k in doc ==> r[k] == doc[k])
  {
    var d := if HasMsg0(doc) then SetMsg0(doc, f(Msg0Text(doc))) else doc;
    if InstrText(doc) == "" then d else SetInstr(d, g(InstrText(doc)))
  }

  lemma SetMsg0Same(doc: Doc)
    requires HasMsg0(doc) && StringContent(doc)
    ensures SetMsg0(doc, Msg0Text(doc)) == doc
  {
    var items := doc["messages"].items;
    assert Msg0(doc)["content" := Str(Msg0Text(doc))] == Msg0(doc);
    assert items[0 := Obj(Msg0(doc))] == items;
  }

  lemma SetInstrSame(doc: Doc)
    requires InstrText(doc) != ""
    ensures SetInstr(doc, InstrText(doc)) == doc
  {
    var m := doc["instructions"].fields;
    assert m["system_prompt" := Str(InstrText(doc))] == m;
  }

  lemma RewriteStringContent(doc: Doc, f: string -> string, g: string -> string)
    ensures StringContent(Rewrite(doc, f, g))
  {
  }

  lemma SetMsg0Twice(doc: Doc, a: string, b: string)
    requires HasMsg0(doc)
    ensures SetMsg0(SetMsg0(doc, a), b) == SetMsg0(doc, b)
  {
    var m := Msg0(doc);
    assert m["content" := Str(a)]["content" := Str(b)] == m["content" := Str(b)];
    var items := doc["messages"].items;
    var x, y := Obj(m["content" := Str(a)]), Obj(m["content" := Str(b)]);
    assert items[0 := x][0 := y] == items[0 := y];
    assert doc["messages" := Arr(items[0 := x])]["messages" := Arr(items[0 := y])] == doc["messages" := Arr(items[0 := y])];
  }

  lemma SetInstrTwice(doc: Doc, a: string, b: string)
    requires HasInstr(doc)
    ensures SetInstr(SetInstr(doc, a), b) == SetInstr(doc, b)
  {
    var m := doc["instructions"].fields;
    var x, y := m["system_prompt" := Str(a)], m["system_prompt" := Str(b)];
    assert x["system_prompt" := Str(b)] == y;
    assert doc["instructions" := Obj(x)]["instructions" := Obj(y)] == doc["instructions" := Obj(y)];
  }

  lemma SetCommute(doc: Doc, a: string, b: string)
    requires HasMsg0(doc) && HasInstr(doc)
    ensures SetMsg0(SetInstr(doc, b), a) == SetInstr(SetMsg0(doc, a), b)
  {
  }

  /** Two rewrites in a row are the rewrite by the composition. */
  lemma RewriteTwice(doc: Doc, f: string -> string, g: string -> string, h: string -> string)
    requires forall t :: h(t) == g(f(t))
    requires forall t :: t != "" ==> f(t) != ""
    ensures Rewrite(Rewrite(doc, f, f), g, g) == Rewrite(doc, h, h)
  {
    var t0, t1 := Msg0Text(doc), InstrText(doc);
    if HasMsg0(doc) {
      SetMsg0Twice(doc, f(t0), h(t0));
      if t1 != "" {
        var d := SetMsg0(doc, f(t0));
        SetCommute(d, h(t0), f(t1));
        SetInstrTwice(SetMsg0(doc, h(t0)), f(t1), h(t1));
      }
    } else if t1 != "" {
      SetInstrTwice(doc, f(t1), h(t1));
    }
  }

  lemma RewriteCong(doc: Doc, f: string -> string, g: string -> string)
    requires forall t :: f(t) == g(t)
    ensures Rewrite(doc, f, f) == Rewrite(doc, g, g)
  {
  }
}
