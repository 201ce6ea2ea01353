/** Watching a job and resuming the watch: in process (adapters/jobsfake/runtime.go,
    adapters/jobsma/runtime.go) and over HTTP through handler, wire and client
    (adapters/jobshttp). */
module JobWatch {
  import opened Collections
  import opened Json
  import opened JobStore
  import opened JobWire
  import opened Sse
  import opened Decimal
  import opened Text
  import Jobs = JobRuntime
  import JobLaws

  // ---- the resume law -------------------------------------------------------------------

  lemma {:induction false} AboveConcat(xs: seq<Event>, ys: seq<Event>, cursor: int)
    ensures Above(xs + ys, cursor) == Above(xs, cursor) + Above(ys, cursor)
    decreases |ys|
  {
    if ys == [] {
      assert xs + ys == xs;
    } else {
      var n := |ys| - 1;
      assert (xs + ys)[..|xs + ys| - 1] == xs + ys[..n];
      AboveConcat(xs, ys[..n], cursor);
    }
  }

  lemma {:induction false} NoneAbove(xs: seq<Event>, cursor: int)
    requires forall i :: 0 <= i < |xs| ==> xs[i].seqNo <= cursor
    ensures Above(xs, cursor) == []
    decreases |xs|
  {
    if xs != [] { NoneAbove(xs[..|xs| - 1], cursor); }
  }

  ghost predicate NoneBetween(xs: seq<Event>, a: int, b: int) {
    forall i :: 0 <= i < |xs| ==> !(a < xs[i].seqNo <= b)
  }

  lemma {:induction false} AboveLower(xs: seq<Event>, a: int, b: int)
    requires a <= b
    ensures |Above(xs, b)| <= |Above(xs, a)|
    ensures NoneBetween(xs, a, b) <==> |Above(xs, b)| == |Above(xs, a)|
    ensures NoneBetween(xs, a, b) ==> Above(xs, b) == Above(xs, a)
    decreases |xs|
  {
    if xs != [] {
      var front := xs[..|xs| - 1];
      AboveLower(front, a, b);
      assert NoneBetween(xs, a, b) <==> NoneBetween(front, a, b) && !(a < xs[|front|].seqNo <= b) by {
        assert forall i :: 0 <= i < |front| ==> xs[i] == front[i];
      }
    }
  }

  /** A reader that went from a to b and resumes at b sees, together, exactly what one
      later read from a sees: if and only if nothing that was logged meanwhile is numbered
      in the stretch it had already passed. */
  lemma {:induction false} ResumeExact(log: seq<Event>, more: seq<Event>, a: int, b: int)
    requires a <= b && forall i :: 0 <= i < |log| ==> log[i].seqNo <= b
    ensures Above(log, a) + Above(log + more, b) == Above(log + more, a) <==> NoneBetween(more, a, b)
  {
    AboveConcat(log, more, a);
    AboveConcat(log, more, b);
    NoneAbove(log, b);
    AboveLower(more, a, b);
    assert Above(log, a) + Above(log + more, b) == Above(log, a) + ([] + Above(more, b));
    if Above(log, a) + Above(more, b) == Above(log, a) + Above(more, a) {
      assert |Above(more, b)| == |Above(more, a)|;
    }
  }

  /** A lower number that is logged late is lost to the reader that resumes. */
  lemma {:induction false} LateNumberIsLost(e: Event)
    ensures var log, more := [e.(seqNo := 2)], [e.(seqNo := 1)];
      Above(log, 0) + Above(log + more, 2) != Above(log + more, 0)
  {
    var log, more := [e.(seqNo := 2)], [e.(seqNo := 1)];
    assert more[0].seqNo == 1;
    ResumeExact(log, more, 0, 2);
  }

  lemma {:induction false} AboveHolds(xs: seq<Event>, cursor: int, e: Event)
    ensures e in Above(xs, cursor) <==> e in xs && e.seqNo > cursor
    decreases |xs|
  {
    if xs != [] {
      var n := |xs| - 1;
      AboveHolds(xs[..n], cursor, e);
      assert xs == xs[..n] + [xs[n]];
    }
  }

  /** A read in order of number shows the largest number last, and nothing at or below its
      cursor. */
  lemma {:induction false} SortedCursor(log: seq<Event>, a: int, r: seq<Event>)
    requires SortedRead(r, Above(log, a))
    ensures a <= Cursor(r, a)
    ensures forall i :: 0 <= i < |log| ==> log[i].seqNo <= Cursor(r, a)
    ensures forall i :: 0 <= i < |r| ==> a < r[i].seqNo <= Cursor(r, a)
  {
    forall i | 0 <= i < |r| ensures a < r[i].seqNo {
      assert r[i] in multiset(r);
      AboveHolds(log, a, r[i]);
    }
    forall i | 0 <= i < |log| ensures log[i].seqNo <= Cursor(r, a) {
      AboveHolds(log, a, log[i]);
      if log[i].seqNo > a {
        assert log[i] in multiset(Above(log, a));
        assert log[i] in r;
      }
    }
  }

  /** The law for reads in order of number, on any log: reading on from the last number seen
      makes up, in order, one read of everything if and only if nothing logged meanwhile is
      numbered in the stretch already passed. */
  lemma {:induction false} ResumeSorted(log: seq<Event>, more: seq<Event>, a: int, first: seq<Event>, second: seq<Event>)
    requires SortedRead(first, Above(log, a))
    requires SortedRead(second, Above(log + more, Cursor(first, a)))
    ensures SortedRead(first + second, Above(log + more, a)) <==> NoneBetween(more, a, Cursor(first, a))
  {
    hide Above;
    var b := Cursor(first, a);
    SortedCursor(log, a, first);
    AboveConcat(log, more, a);
    AboveConcat(log, more, b);
    NoneAbove(log, b);
    AboveLower(more, a, b);
    assert Above(log + more, b) == Above(more, b);
    if NoneBetween(more, a, b) {
      assert multiset(first + second) == multiset(Above(log + more, a));
      forall i | 0 <= i < |second| ensures b < second[i].seqNo {
        assert second[i] in multiset(second);
        AboveHolds(log + more, b, second[i]);
      }
    }
    if SortedRead(first + second, Above(log + more, a)) {
      assert |multiset(first + second)| == |multiset(Above(log + more, a))|;
      assert |multiset(first)| == |multiset(Above(log, a))| && |multiset(second)| == |multiset(Above(more, b))|;
    }
  }

  ghost predicate Distinct(xs: seq<Event>) {
    forall e, f :: e in xs && f in xs && e.seqNo == f.seqNo ==> e == f
  }

  lemma TopIsLast(r: seq<Event>, e: Event)
    requires Ordered(r) && e in r
    ensures e.seqNo <= r[|r| - 1].seqNo
  {
  }

  lemma DropLast(r: seq<Event>)
    requires r != []
    ensures multiset(r[..|r| - 1]) == multiset(r) - multiset{r[|r| - 1]} && r[|r| - 1] in r
  {
    assert r == r[..|r| - 1] + [r[|r| - 1]];
  }

  lemma LastSame(r: seq<Event>, t: seq<Event>)
    requires Ordered(r) && Ordered(t) && multiset(r) == multiset(t) && Distinct(r) && r != []
    ensures t != [] && r[|r| - 1] == t[|t| - 1]
    ensures multiset(r[..|r| - 1]) == multiset(t[..|t| - 1])
  {
    hide Ordered;
    assert |multiset(r)| == |multiset(t)|;
    var e, f := r[|r| - 1], t[|t| - 1];
    DropLast(r);
    DropLast(t);
    assert e in multiset(t) && f in multiset(r);
    TopIsLast(r, f);
    TopIsLast(t, e);
  }

  /** Distinct numbers leave one order only. */
  lemma {:induction false} SortedUnique(r: seq<Event>, t: seq<Event>)
    requires Ordered(r) && Ordered(t) && multiset(r) == multiset(t) && Distinct(r)
    ensures r == t
    decreases |r|
  {
    if r == [] {
      assert |multiset(t)| == 0;
    } else {
      LastSame(r, t);
      SortedUnique(r[..|r| - 1], t[..|t| - 1]);
      assert r == r[..|r| - 1] + [r[|r| - 1]] && t == t[..|t| - 1] + [t[|t| - 1]];
    }
  }

  /** With distinct numbers: the two reads together are the one later read exactly then. */
  lemma {:induction false} ResumeSortedExact(log: seq<Event>, more: seq<Event>, a: int, first: seq<Event>, second: seq<Event>, whole: seq<Event>)
    requires SortedRead(first, Above(log, a)) && SortedRead(whole, Above(log + more, a))
    requires SortedRead(second, Above(log + more, Cursor(first, a)))
    requires Distinct(log + more)
    ensures first + second == whole <==> NoneBetween(more, a, Cursor(first, a))
  {
    ResumeSorted(log, more, a, first, second);
    if NoneBetween(more, a, Cursor(first, a)) {
      forall e | e in first + second ensures e in log + more {
        assert e in multiset(first + second);
        AboveHolds(log + more, a, e);
      }
      SortedUnique(first + second, whole);
    }
  }

  ghost predicate Numbered(log: seq<Event>) {
    forall i :: 0 <= i < |log| ==> log[i].seqNo == i + 1
  }

  /** The cursor after a read: the last number seen. */
  function Cursor(read: seq<Event>, a: int): int {
    if read == [] then a else read[|read| - 1].seqNo
  }

  lemma {:induction false} NumberedAbove(log: seq<Event>, a: int)
    requires Numbered(log)
    ensures a <= Cursor(Above(log, a), a)
    ensures Cursor(Above(log, a), a) == if log != [] && |log| > a then |log| else a
    decreases |log|
  {
    if log != [] { NumberedAbove(log[..|log| - 1], a); }
  }

  /** On numbered append-only logs resuming never loses nor repeats an event. */
  lemma {:induction false} ResumeNumbered(log: seq<Event>, later: seq<Event>, a: int)
    requires Numbered(later) && log <= later
    ensures Above(log, a) + Above(later, Cursor(Above(log, a), a)) == Above(later, a)
  {
    assert Numbered(log) by { assert forall i :: 0 <= i < |log| ==> log[i] == later[i]; }
    NumberedAbove(log, a);
    var b := Cursor(Above(log, a), a);
    var more := later[|log|..];
    assert later == log + more;
    if a < |log| {
      forall i | 0 <= i < |more| ensures more[i].seqNo > b {
        assert more[i] == later[|log| + i];
      }
    }
    ResumeExact(log, more, a, b);
  }

  /** In process, at any two moments of any run of the job runtime. */
  lemma {:induction false} ResumeInProcess(host: bool, steps: seq<Jobs.Step>, k: nat, id: Id, a: int)
    requires Jobs.Legal(host, steps) && k <= |steps| && Jobs.Legal(host, steps[..k])
    ensures var first := Above(Log(Jobs.After(host, steps[..k]).store, id), a);
            var later := Log(Jobs.After(host, steps).store, id);
            first + Above(later, Cursor(first, a)) == Above(later, a)
  {
    JobLaws.LogsGrow(host, steps, k, id);
    var later := Log(Jobs.After(host, steps).store, id);
    forall i | 0 <= i < |later| ensures later[i].seqNo == i + 1 {
      JobLaws.LogsNumbered(host, steps, id, i);
    }
    ResumeNumbered(Log(Jobs.After(host, steps[..k]).store, id), later, a);
  }

  // ---- over HTTP --------------------------------------------------------------------------

  const DONE := ": done\n"

  /** parseFromSeq: the query wins over the Last-Event-ID header. */
  function ParseFromSeq(query: string, header: string): int {
    if query != "" then Atoi(query) else if header != "" then Atoi(header) else 0
  }

  function Frames(events: seq<Event>): seq<Chunk> {
    seq(|events|, i requires 0 <= i < |events| => Frame(events[i]))
  }

  /** The feed that the handler writes for a known job. */
  function Feed(c: Codec, log: seq<Event>, cursor: int): string {
    Render(c, Frames(Above(log, cursor)) + [Noise(DONE)])
  }

  lemma {:induction false} RenderConcat(c: Codec, xs: seq<Chunk>, ys: seq<Chunk>)
    ensures Render(c, xs + ys) == Render(c, xs) + Render(c, ys)
  {
    hide WriteEvent;
    if xs == [] {
      assert xs + ys == ys;
    } else {
      assert (xs + ys)[1..] == xs[1..] + ys;
      RenderConcat(c, xs[1..], ys);
    }
  }

  /** A cursor sent in the query counts, else one in the header; without either the watch
      begins at the start. */
  lemma {:induction false} CursorSent(n: int, header: string)
    ensures ParseFromSeq(Itoa(n), header) == n && ParseFromSeq("", Itoa(n)) == n && ParseFromSeq("", "") == 0
  {
    ItoaBack(n);
    hide Itoa, Atoi;
    assert |""| == 0;
  }

  /** ServeHTTP for a known job: the events of the watch one by one, then a comment. */
  method ServeFeed(c: Codec, store: Runtime, id: Id, query: string, header: string) returns (status: int, body: string)
    ensures id in store.Value().events ==>
      status == 200 && body == Feed(c, store.Value().events[id], ParseFromSeq(query, header))
    ensures id !in store.Value().events ==> status == 404 && body == ""
  {
    hide WriteEvent, Above;
    var ch := store.Watch(id, ParseFromSeq(query, header));
    if ch == None { return 404, ""; }
    status, body := 200, "";
    var evs := ch.value;
    for n := 0 to |evs|
      invariant body == Render(c, Frames(evs[..n]))
    {
      assert Frames(evs[..n + 1]) == Frames(evs[..n]) + [Frame(evs[n])];
      RenderConcat(c, Frames(evs[..n]), [Frame(evs[n])]);
      assert Render(c, [Frame(evs[n])]) == WriteEvent(c, evs[n]) + "";
      var frame := WriteSSEEvent(c, evs[n]);
      body := body + frame;
    }
    assert evs[..|evs|] == evs;
    RenderConcat(c, Frames(evs), [Noise(DONE)]);
    assert Render(c, [Noise(DONE)]) == DONE + "\n" + "";
    body := body + ": done\n\n";
  }

  /** The client's half of Watch, after a 200: read the body, keep what is above the
      cursor. */
  method ReadFeed(c: Codec, body: string, afterSeq: int) returns (r: Option<seq<Event>>)
    ensures r == match ReadFrom(c, body, Reader([], []))
                 case None => None
                 case Some(events) => Some(Above(events, afterSeq))
  {
    hide ReadFrom;
    var events := ReadSSEEvents(c, body);
    if events == None { return None; }
    var evs, buf := events.value, [];
    for k := 0 to |evs|
      invariant buf == Above(evs[..k], afterSeq)
    {
      assert evs[..k + 1][..k] == evs[..k];
      if evs[k].seqNo > afterSeq { buf := buf + [evs[k]]; }
    }
    assert evs[..|evs|] == evs;
    return Some(buf);
  }

  /** Watch from one end to the other: the cursor goes out as text, the feed comes back. */
  function WatchOverHttp(c: Codec, log: seq<Event>, afterSeq: int): Option<seq<Event>> {
    match ReadFrom(c, Feed(c, log, ParseFromSeq(Itoa(afterSeq), Itoa(afterSeq))), Reader([], []))
    case None => None
    case Some(events) => Some(Above(events, afterSeq))
  }

  function Normals(events: seq<Event>): seq<Event> {
    seq(|events|, i requires 0 <= i < |events| => Normal(events[i]))
  }

  ghost predicate Sendable(c: Codec, log: seq<Event>) {
    forall i :: 0 <= i < |log| ==> Safe(c, Frame(log[i])) && Good(c, Frame(log[i]))
  }

  lemma {:induction false} EventsOfFrames(events: seq<Event>)
    ensures Events(Frames(events) + [Noise(DONE)]) == Normals(events)
  {
    hide Normal;
    var cs := Frames(events) + [Noise(DONE)];
    if events == [] {
      assert cs[1..] == [];
    } else {
      assert cs[1..] == Frames(events[1..]) + [Noise(DONE)];
      EventsOfFrames(events[1..]);
      assert Normals(events) == [Normal(events[0])] + Normals(events[1..]);
    }
  }

  lemma {:induction false} AboveNormals(events: seq<Event>, cursor: int)
    ensures Above(Normals(events), cursor) == Normals(Above(events, cursor))
    decreases |events|
  {
    if events != [] {
      var n := |events| - 1;
      AboveNormals(events[..n], cursor);
      assert Normals(events)[..n] == Normals(events[..n]);
      var rest := Above(events[..n], cursor);
      assert Normals(rest + [events[n]]) == Normals(rest) + [Normal(events[n])];
    }
  }

  lemma {:induction false} AboveTwice(events: seq<Event>, cursor: int)
    ensures Above(Above(events, cursor), cursor) == Above(events, cursor)
    decreases |events|
  {
    if events != [] {
      var n := |events| - 1;
      AboveTwice(events[..n], cursor);
      var rest := Above(events[..n], cursor);
      assert (rest + [events[n]])[..|rest|] == rest;
    }
  }

  lemma {:induction false} AboveWithin(events: seq<Event>, cursor: int, x: Event)
    requires x in Above(events, cursor)
    ensures x in events
    decreases |events|
  {
    if x != events[|events| - 1] { AboveWithin(events[..|events| - 1], cursor, x); }
  }

  lemma DoneIsNoise(c: Codec)
    ensures Safe(c, Noise(DONE)) && Good(c, Noise(DONE))
  {
    var t := DONE;
    assert t[..6] == ": done" && t[6] == '\n';
    BreakIs(t, 6);
    assert Rest(t) == "";
    assert t[0] == ':';
  }

  /** The HTTP watch gives the normal forms of what the in-process watch gives. */
  lemma {:induction false} HttpRefinesWatch(c: Codec, log: seq<Event>, a: int)
    requires Sendable(c, log)
    ensures WatchOverHttp(c, log, a) == Some(Normals(Above(log, a)))
  {
    hide Safe, Good, Render, ReadFrom, Itoa, Atoi;
    ItoaBack(a);
    var evs := Above(log, a);
    var cs := Frames(evs) + [Noise(DONE)];
    DoneIsNoise(c);
    forall i | 0 <= i < |cs| ensures Safe(c, cs[i]) && Good(c, cs[i]) {
      if i < |evs| {
        AboveWithin(log, a, evs[i]);
      }
    }
    ReadBack(c, cs, Reader([], []));
    EventsOfFrames(evs);
    AboveTwice(log, a);
    AboveNormals(evs, a);
    assert [] + Events(cs) == Events(cs);
  }

  /** The resume law through handler, wire and client. */
  lemma {:induction false} ResumeOverHttp(c: Codec, log: seq<Event>, later: seq<Event>, a: int)
    requires Sendable(c, later) && Numbered(later) && log <= later
    ensures var first, whole := WatchOverHttp(c, log, a), WatchOverHttp(c, later, a);
      && first.Some? && whole.Some?
      && var second := WatchOverHttp(c, later, Cursor(first.value, a));
         second.Some? && first.value + second.value == whole.value
  {
    hide WatchOverHttp, Safe, Good;
    assert Sendable(c, log) by { assert forall i :: 0 <= i < |log| ==> log[i] == later[i]; }
    HttpRefinesWatch(c, log, a);
    HttpRefinesWatch(c, later, a);
    var read := Above(log, a);
    assert Cursor(Normals(read), a) == Cursor(read, a);
    HttpRefinesWatch(c, later, Cursor(read, a));
    ResumeNumbered(log, later, a);
    assert Normals(Above(later, a)) == Normals(read) + Normals(Above(later, Cursor(read, a)));
  }

  lemma ShortLine(s: string)
    requires '\n' !in s && |s| < MAX_TOKEN
    ensures AllShort(s)
  {
    assert s[..|s|] == s;
    BreakIs(s, |s|);
  }

  lemma RunEvent(e: Event)
    requires e.wave == 0 && e.planEpoch == 0 && 0 <= e.seqNo <= 2
    requires e.typ == Jobs.STARTED || e.typ == Jobs.FINISHED
    requires e.payload.Keys == {"goal"} || e.payload.Keys == {"status"}
    requires forall k :: k in e.payload ==> e.payload[k].Str?
    ensures TypeSafe(e.typ) && WellTyped(e) && AllShort("event: " + Shown(e.typ)) && |Itoa(e.seqNo)| == 1
  {
    var typ := e.typ;
    assert forall i :: 0 <= i < |Jobs.STARTED| ==> Jobs.STARTED[i] != '\n';
    assert forall i :: 0 <= i < |Jobs.FINISHED| ==> Jobs.FINISHED[i] != '\n';
    OneLineTypeIsSafe(typ);
    ShortLine("event: " + Shown(typ));
  }

  /** A log of a run is short, and each of its events can be sent. */
  lemma {:induction false} RunLog(host: bool, steps: seq<Jobs.Step>, id: Id)
    requires Jobs.Legal(host, steps)
    ensures var log := Log(Jobs.After(host, steps).store, id);
      |log| <= 2 && forall i :: 0 <= i < |log| ==>
        && log[i].seqNo <= 2
        && TypeSafe(log[i].typ) && WellTyped(log[i]) && AllShort("event: " + Shown(log[i].typ)) && |Itoa(log[i].seqNo)| == 1
  {
    hide TypeSafe, WellTyped, AllShort, Itoa, Jobs.ProcInv, Jobs.SnapInv, Jobs.After, Jobs.Legal;
    Jobs.Invariant(host, steps, id);
    var log := Log(Jobs.After(host, steps).store, id);
    forall i | 0 <= i < |log|
      ensures log[i].seqNo <= 2
      ensures TypeSafe(log[i].typ) && WellTyped(log[i]) && AllShort("event: " + Shown(log[i].typ)) && |Itoa(log[i].seqNo)| == 1
    {
      RunEvent(log[i]);
    }
  }

  /** The hypothesis of the laws over HTTP can be met for every log of every run of the job
      runtime. */
  lemma {:induction false} RunsCanBeSent(host: bool, steps: seq<Jobs.Step>, id: Id) returns (c: Codec)
    requires Jobs.Legal(host, steps)
    ensures Sendable(c, Log(Jobs.After(host, steps).store, id))
  {
    hide ToWire, TypeSafe, WellTyped, AllShort, Itoa, Jobs.After, Jobs.Legal;
    RunLog(host, steps, id);
    var log := Log(Jobs.After(host, steps).store, id);
    var stamps := Stamps(Itoa, Atoi);
    var docs := seq(|log|, i requires 0 <= i < |log| => ToWire(stamps, log[i]));
    c := CodecFor(docs);
    forall i | 0 <= i < |log| ensures Safe(c, Frame(log[i])) && Good(c, Frame(log[i])) {
      assert docs[i] in docs;
      FewDigits(docs, docs[i]);
    }
  }

  lemma FewDigits(docs: seq<Doc>, d: Doc)
    requires |docs| <= 9
    ensures |Digits(IndexOf(docs, d))| == 1
  {
  }
}
