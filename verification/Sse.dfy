/** Server-sent events (section 9.2 of the WHATWG HTML Living Standard) as the job feed
    writes and reads them (adapters/jobshttp/sse.go). */
module Sse {
  import opened Collections
  import opened Text
  import opened Json
  import opened JobStore
  import opened JobWire
  import opened ControlPlane
  import opened Decimal

  /** The longest raw line that the scanner accepts is one short of this. */
  const MAX_TOKEN := 1048576

  /** JSON text and timestamps. */
  datatype Codec = Codec(encode: Doc -> string, decode: string -> Option<Doc>, stamps: Stamps) {
    /** This document is one line of text that begins and ends with a brace, and it comes
        back.  Nothing is asked of other documents. */
    predicate Carries(d: Doc) {
      var text := encode(d);
      && decode(text) == Some(d)
      && text != "" && '\n' !in text && text[0] == '{' && text[|text| - 1] == '}'
    }

    /** Timestamp and object of this event come back. */
    predicate CarriesEvent(e: Event) { stamps.Carries(e.ts) && Carries(ToWire(stamps, e)) }
  }

  // ---- writing ------------------------------------------------------------------------

  function Shown(typ: string): string {
    if typ == "" then "message" else typ
  }

  /** writeSSEEvent */
  function WriteEvent(c: Codec, e: Event): string {
    "id: " + Itoa(e.seqNo) + "\nevent: " + Shown(e.typ) + "\ndata: " + c.encode(ToWire(c.stamps, e)) + "\n\n"
  }

  /** writeSSEEvent, line by line. */
  method WriteSSEEvent(c: Codec, e: Event) returns (out: string)
    ensures out == WriteEvent(c, e)
  {
    hide ToWire;
    var data := c.encode(ToWire(c.stamps, e));
    var typ := e.typ;
    if typ == "" { typ := "message"; }
    var id := Itoa(e.seqNo);
    out := "id: " + id + "\nevent: " + typ + "\ndata: " + data + "\n\n";
  }

  /** What a body is put together from: frames, and lines that carry no data. */
  datatype Chunk = Frame(e: Event) | Noise(text: string)

  function Render(c: Codec, chunks: seq<Chunk>): string {
    if chunks == [] then ""
    else (match chunks[0]
          case Frame(e) => WriteEvent(c, e)
          case Noise(text) => text + "\n") + Render(c, chunks[1..])
  }

  // ---- reading ------------------------------------------------------------------------

  /** The length of the first line. */
  function Break(s: string): (k: nat)
    ensures k <= |s| && '\n' !in s[..k] && (k < |s| ==> s[k] == '\n')
  {
    if s == "" || s[0] == '\n' then 0 else 1 + Break(s[1..])
  }

  function Rest(s: string): string {
    if Break(s) < |s| then s[Break(s) + 1..] else ""
  }

  function DropCR(line: string): string {
    if line != "" && line[|line| - 1] == '\r' then line[..|line| - 1] else line
  }

  function TrimBlanks(s: string): string {
    if s != "" && s[0] == ' ' then TrimBlanks(s[1..]) else s
  }

  /** The data lines of the event at hand, and the events read so far. */
  datatype Reader = Reader(data: seq<string>, out: seq<Event>)

  function Flush(c: Codec, r: Reader): Option<Reader> {
    if r.data == [] then Some(r)
    else match c.decode(Join(r.data, "\n"))
         case None => None
         case Some(d) =>
           match FromWire(c.stamps, d)
           case None => None
           case Some(e) => Some(Reader([], r.out + [e]))
  }

  function FeedLine(c: Codec, r: Reader, line: string): Option<Reader> {
    if HasPrefix(line, "data:") then Some(r.(data := r.data + [TrimBlanks(line[5..])]))
    else if TrimSpace(line) == "" then Flush(c, r)
    else Some(r)
  }

  /** None stands for the watch-failed error: an overlong line, or data that is no event. */
  function ReadFrom(c: Codec, s: string, r: Reader): Option<seq<Event>>
    decreases |s|
  {
    if s == "" then
      match Flush(c, r)
      case None => None
      case Some(last) => Some(last.out)
    else if Break(s) >= MAX_TOKEN then None
    else match FeedLine(c, r, DropCR(s[..Break(s)]))
         case None => None
         case Some(next) => ReadFrom(c, Rest(s), next)
  }

  /** readSSEEvents */
  method ReadSSEEvents(c: Codec, body: string) returns (out: Option<seq<Event>>)
    ensures out == ReadFrom(c, body, Reader([], []))
  {
    hide TrimSpace, Join, FromWire, TrimBlanks;
    var data: seq<string>, evs: seq<Event> := [], [];
    var s := body;
    while s != ""
      invariant ReadFrom(c, body, Reader([], [])) == ReadFrom(c, s, Reader(data, evs))
      decreases |s|
    {
      var k := Break(s);
      if k >= MAX_TOKEN { return None; }
      var line := DropCR(s[..k]);
      if HasPrefix(line, "data:") {
        data := data + [TrimBlanks(line[5..])];
      } else if TrimSpace(line) == "" && |data| > 0 {
        var d := c.decode(Join(data, "\n"));
        if d == None { return None; }
        var e := FromWire(c.stamps, d.value);
        if e == None { return None; }
        data, evs := [], evs + [e.value];
      }
      s := Rest(s);
    }
    if |data| > 0 {
      var d := c.decode(Join(data, "\n"));
      if d == None { return None; }
      var e := FromWire(c.stamps, d.value);
      if e == None { return None; }
      evs := evs + [e.value];
    }
    return Some(evs);
  }

  // ---- the round trip -----------------------------------------------------------------

  /** No line of the text is a data line. */
  predicate NoData(s: string)
    decreases |s|
  {
    !HasPrefix(s[..Break(s)], "data:") && (Break(s) < |s| ==> NoData(Rest(s)))
  }

  /** Every line of the text fits the scanner. */
  predicate AllShort(s: string)
    decreases |s|
  {
    Break(s) < MAX_TOKEN && (Break(s) < |s| ==> AllShort(Rest(s)))
  }

  /** The type opens no data line of its own: true of every type without a line break. */
  predicate TypeSafe(typ: string) { NoData("event: " + Shown(typ)) }

  /** What reading back asks of a chunk: a frame's type opens no data line, and the codec
      carries its event. */
  predicate Safe(c: Codec, chunk: Chunk) {
    match chunk
    case Frame(e) => TypeSafe(e.typ) && e.seqNo <= INT64_MAX && c.CarriesEvent(e)
    case Noise(text) => NoData(text)
  }

  predicate Fits(c: Codec, chunk: Chunk) {
    match chunk
    case Frame(e) =>
      && |Itoa(e.seqNo)| + 4 < MAX_TOKEN && AllShort("event: " + Shown(e.typ))
      && |c.encode(ToWire(c.stamps, e))| + 6 < MAX_TOKEN
    case Noise(text) => AllShort(text)
  }

  function Events(chunks: seq<Chunk>): seq<Event> {
    if chunks == [] then []
    else (match chunks[0]
          case Frame(e) => [Normal(e)]
          case Noise(_) => []) + Events(chunks[1..])
  }

  predicate Good(c: Codec, chunk: Chunk) {
    Fits(c, chunk) && (chunk.Frame? ==> WellTyped(chunk.e))
  }

  lemma {:induction false} BreakIs(s: string, m: nat)
    requires m <= |s| && '\n' !in s[..m] && (m < |s| ==> s[m] == '\n')
    ensures Break(s) == m
  {
    if m > 0 {
      assert s[0] == s[..m][0];
      assert s[1..][..m - 1] == s[..m][1..];
      BreakIs(s[1..], m - 1);
    }
  }

  lemma BreakAt(l: string, rest: string)
    requires '\n' !in l
    ensures Break(l + "\n" + rest) == |l| && Rest(l + "\n" + rest) == rest
    ensures (l + "\n" + rest)[..|l|] == l
  {
    var s := l + "\n" + rest;
    assert s[..|l|] == l;
    BreakIs(s, |l|);
  }

  lemma LineStep(c: Codec, l: string, rest: string, r: Reader)
    requires '\n' !in l
    ensures ReadFrom(c, l + "\n" + rest, r) ==
      if |l| >= MAX_TOKEN then None
      else match FeedLine(c, r, DropCR(l))
           case None => None
           case Some(next) => ReadFrom(c, rest, next)
  {
    hide FeedLine, Break, Rest;
    BreakAt(l, rest);
  }

  lemma NoDataLine(c: Codec, r: Reader, l: string)
    requires r.data == [] && !HasPrefix(l, "data:")
    ensures FeedLine(c, r, DropCR(l)) == Some(r)
  {
    hide TrimSpace;
    var t := DropCR(l);
    assert t <= l;
  }

  /** Text without data lines is read over. */
  lemma {:induction false} Ignored(c: Codec, text: string, rest: string, r: Reader)
    requires r.data == [] && NoData(text)
    ensures ReadFrom(c, text + "\n" + rest, r) == if AllShort(text) then ReadFrom(c, rest, r) else None
    decreases |text|
  {
    hide FeedLine, Break, DropCR, ReadFrom;
    var k := Break(text);
    var l := text[..k];
    if k == |text| {
      assert text == l;
      LineStep(c, l, rest, r);
      NoDataLine(c, r, l);
    } else {
      assert text == l + "\n" + Rest(text);
      assert text + "\n" + rest == l + "\n" + (Rest(text) + "\n" + rest);
      LineStep(c, l, Rest(text) + "\n" + rest, r);
      NoDataLine(c, r, l);
      Ignored(c, Rest(text), rest, r);
    }
  }

  lemma JoinOne(s: string)
    ensures Join([s], "\n") == s
  {
  }

  lemma DataFed(c: Codec, json: string, r: Reader)
    requires json != "" && json[0] == '{' && json[|json| - 1] == '}' && r.data == []
    ensures DropCR("data: " + json) == "data: " + json
    ensures FeedLine(c, r, "data: " + json) == Some(Reader([json], r.out))
  {
    hide TrimSpace, Flush;
    var l := "data: " + json;
    assert l[|l| - 1] == json[|json| - 1];
    assert l[5..] == " " + json;
    assert (" " + json)[1..] == json;
    assert TrimBlanks(" " + json) == json;
    assert l[..5] == "data:";
    assert r.data + [json] == [json];
  }

  /** A blank line delivers the event of the one data line before it. */
  lemma BlankFed(c: Codec, d: Doc, json: string, r: Reader)
    requires r.data == [json] && c.decode(json) == Some(d)
    ensures FeedLine(c, r, DropCR("")) == match FromWire(c.stamps, d)
                                          case None => None
                                          case Some(e) => Some(Reader([], r.out + [e]))
  {
    hide FromWire;
    assert TrimSpace("") == "";
    JoinOne(json);
  }

  lemma {:induction false} FrameRead(c: Codec, e: Event, rest: string, r: Reader)
    requires r.data == [] && Safe(c, Frame(e))
    ensures ReadFrom(c, WriteEvent(c, e) + rest, r) ==
      if Good(c, Frame(e)) then ReadFrom(c, rest, Reader([], r.out + [Normal(e)])) else None
  {
    hide ToWire, FromWire, Normal, WellTyped, ReadFrom, NoData, AllShort, FeedLine, DropCR;
    var json := c.encode(ToWire(c.stamps, e));
    var id, ev, dl := "id: " + Itoa(e.seqNo), "event: " + Shown(e.typ), "data: " + json;
    var tail := dl + "\n" + ("" + "\n" + rest);
    assert WriteEvent(c, e) + rest == id + "\n" + (ev + "\n" + tail);
    IdLine(id);
    Ignored(c, id, ev + "\n" + tail, r);
    Ignored(c, ev, tail, r);
    LineStep(c, dl, "" + "\n" + rest, r);
    DataFed(c, json, r);
    LineStep(c, "", rest, Reader([json], r.out));
    BlankFed(c, ToWire(c.stamps, e), json, Reader([json], r.out));
    WireRoundTrip(c.stamps, e);
  }

  lemma IdLine(id: string)
    requires '\n' !in id && HasPrefix(id, "id: ")
    ensures NoData(id) && (AllShort(id) <==> |id| < MAX_TOKEN)
  {
    assert id[..|id|] == id && id[0] == 'i';
    BreakIs(id, |id|);
  }

  /** Reading what was written: any sequence of frames and data-free lines gives back the
      normal forms of the framed events, in order; and it is an error exactly when some
      event is not well typed or some line is too long for the scanner. */
  lemma {:induction false} ReadBack(c: Codec, chunks: seq<Chunk>, r: Reader)
    requires r.data == []
    requires forall i :: 0 <= i < |chunks| ==> Safe(c, chunks[i])
    ensures ReadFrom(c, Render(c, chunks), r) ==
      if forall i :: 0 <= i < |chunks| ==> Good(c, chunks[i]) then Some(r.out + Events(chunks)) else None
  {
    hide Good, Safe, WriteEvent, NoData;
    if chunks == [] {
      assert r.out + Events(chunks) == r.out;
    } else {
      var rest := Render(c, chunks[1..]);
      match chunks[0] {
        case Frame(e) =>
          FrameRead(c, e, rest, r);
          ReadBack(c, chunks[1..], Reader([], r.out + [Normal(e)]));
        case Noise(text) =>
          NoiseSafe(c, text);
          Ignored(c, text, rest, r);
          ReadBack(c, chunks[1..], r);
      }
      hide ReadFrom;
      EventsStep(chunks, r.out);
      assert chunks == [chunks[0]] + chunks[1..];
      assert (forall i :: 0 <= i < |chunks| ==> Good(c, chunks[i])) <==>
        Good(c, chunks[0]) && forall i :: 0 <= i < |chunks[1..]| ==> Good(c, chunks[1..][i]);
    }
  }

  lemma EventsStep(chunks: seq<Chunk>, out: seq<Event>)
    requires chunks != []
    ensures out + Events(chunks) ==
      (match chunks[0]
       case Frame(e) => (out + [Normal(e)]) + Events(chunks[1..])
       case Noise(_) => out + Events(chunks[1..]))
  {
    hide Normal;
    var rest := Events(chunks[1..]);
    match chunks[0] {
      case Frame(e) =>
        assert Events(chunks) == [Normal(e)] + rest;
        Regroup(out, [Normal(e)], rest);
      case Noise(_) =>
        assert Events(chunks) == [] + rest;
        Regroup(out, [], rest);
        assert out + [] == out;
    }
  }

  lemma Regroup(a: seq<Event>, b: seq<Event>, d: seq<Event>)
    ensures a + (b + d) == (a + b) + d
  {
  }

  lemma NoiseSafe(c: Codec, text: string)
    ensures Safe(c, Noise(text)) <==> NoData(text)
    ensures Good(c, Noise(text)) <==> AllShort(text)
  {
  }

  /** Types without a line break are safe. */
  lemma {:induction false} OneLineTypeIsSafe(typ: string)
    requires '\n' !in typ
    ensures TypeSafe(typ)
  {
    var s := "event: " + Shown(typ);
    assert '\n' !in Shown(typ);
    assert s[..|s|] == s && s[0] == 'e';
    BreakIs(s, |s|);
  }

  // ---- codecs that carry --------------------------------------------------------------

  function IndexOf(docs: seq<Doc>, d: Doc): (k: nat)
    ensures k <= |docs| && (d in docs ==> k < |docs| && docs[k] == d)
  {
    if docs == [] then 0 else if docs[0] == d then 0 else 1 + IndexOf(docs[1..], d)
  }

  /** For any documents there is a codec that carries them, and timestamps print as decimal
      numbers. */
  lemma {:induction false} CodecFor(docs: seq<Doc>) returns (c: Codec)
    ensures forall d :: d in docs ==> c.Carries(d) && |c.encode(d)| == 2 + |Digits(IndexOf(docs, d))|
    ensures c.stamps == Stamps(Itoa, Atoi) && forall t :: c.stamps.Carries(t)
  {
    c := Codec(d => "{" + Digits(IndexOf(docs, d)) + "}", s => ByNumber(docs, s), Stamps(Itoa, Atoi));
    forall d | d in docs ensures c.Carries(d) && |c.encode(d)| == 2 + |Digits(IndexOf(docs, d))| {
      NumberBack(docs, d);
    }
    forall t ensures c.stamps.Carries(t) {
      ItoaBack(t);
    }
  }

  function ByNumber(docs: seq<Doc>, s: string): Option<Doc> {
    if |s| < 2 then None
    else match Undigits(s[1..|s| - 1])
         case None => None
         case Some(n) => if n < |docs| then Some(docs[n]) else None
  }

  lemma NumberBack(docs: seq<Doc>, d: Doc)
    requires d in docs
    ensures var text := "{" + Digits(IndexOf(docs, d)) + "}";
      ByNumber(docs, text) == Some(d) && '\n' !in text
  {
    var ds := Digits(IndexOf(docs, d));
    var text := "{" + ds + "}";
    assert text[1..|text| - 1] == ds;
    DigitsBack(IndexOf(docs, d));
  }
}
