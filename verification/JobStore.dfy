/** The mutex-guarded maps of the job runtimes (adapters/jobsfake/runtime.go,
    adapters/jobsma/runtime.go): every method is one locked section. */
module JobStore {
  import opened Collections
  import opened Json

  type Id = string

  datatype Event = Event(seqNo: int, typ: string, jobId: Id, ts: int, unitId: string, wave: int, planEpoch: int, payload: Doc)

  datatype Summary = Summary(unitId: string, status: string, errorCode: Option<string>)

  datatype Snapshot = Snapshot(jobId: Id, status: string, seqNo: int, partial: bool, summaries: seq<Summary>, answer: string)

  /** The maps as a value. */
  datatype Store = Store(snaps: map<Id, Snapshot>, events: map<Id, seq<Event>>, cancels: set<Id>, cancelled: set<Id>)

  const EMPTY := Store(map[], map[], {}, {})

  function Log(s: Store, id: Id): seq<Event> {
    if id in s.events then s.events[id] else []
  }

  function Register(s: Store, id: Id): Store {
    s.(snaps := s.snaps[id := Snapshot(id, "running", 0, false, [], "")], events := s.events[id := []],
       cancels := s.cancels + {id}, cancelled := s.cancelled - {id})
  }

  /** The next event of a job is numbered one past the length of its log. */
  function NextEvent(s: Store, id: Id, typ: string, payload: Doc, ts: int): Event {
    Event(|Log(s, id)| + 1, typ, id, ts, "", 0, 0, payload)
  }

  function Append(s: Store, ev: Event): Store {
    s.(events := s.events[ev.jobId := Log(s, ev.jobId) + [ev]])
  }

  /** The status of the closing block: a cancellation that came first wins. */
  function FinalStatus(s: Store, id: Id, status: string): string {
    if id in s.cancelled then "cancelled" else status
  }

  /** The closing block of a run; only its final status decides whether it is partial. */
  function Settle(s: Store, id: Id, status: string, seqNo: int, summaries: seq<Summary>): Store {
    var final := FinalStatus(s, id, status);
    s.(snaps := s.snaps[id := Snapshot(id, final, seqNo, final == "partial", summaries, "")])
  }

  function MarkCancelled(s: Store, id: Id): Store {
    if id !in s.cancels then s
    else
      var prev := if id in s.snaps then s.snaps[id] else Snapshot("", "", 0, false, [], "");
      s.(cancelled := s.cancelled + {id}, snaps := s.snaps[id := prev.(jobId := id, status := "cancelled")])
  }

  /** The events with a number above the cursor, in log order. */
  function Above(events: seq<Event>, cursor: int): seq<Event> {
    if events == [] then []
    else
      var rest := Above(events[..|events| - 1], cursor);
      if events[|events| - 1].seqNo > cursor then rest + [events[|events| - 1]] else rest
  }

  /** What the engine hands to finish. */
  datatype Outcome = Outcome(ok: bool, partial: bool, failed: bool, summaries: seq<Summary>, summary: string)

  function LastSeq(log: seq<Event>): int {
    if log == [] then 0 else log[|log| - 1].seqNo
  }

  /** finish: the flag is read once before the lock and once under it. */
  function Finished(store: Store, id: Id, flag: bool, res: Outcome): Snapshot {
    var status := if flag then "cancelled" else if res.failed && !res.ok then "error"
                  else if res.partial then "partial" else if !res.ok then "error" else "ok";
    var partial := if flag then false else res.partial;
    var locked := id in store.cancelled;
    Snapshot(id, if locked then "cancelled" else status, LastSeq(Log(store, id)),
             if locked then false else partial, res.summaries, res.summary)
  }

  ghost predicate Ordered(r: seq<Event>) {
    forall i, j :: 0 <= i < j < |r| ==> r[i].seqNo <= r[j].seqNo
  }

  /** The events of xs, ordered by number; equal numbers may come in any order. */
  ghost predicate SortedRead(r: seq<Event>, xs: seq<Event>) {
    multiset(r) == multiset(xs) && Ordered(r)
  }

  /** Inserts an event into an ordered list. */
  function Insert(r: seq<Event>, e: Event): seq<Event> {
    if r == [] || r[|r| - 1].seqNo <= e.seqNo then r + [e] else Insert(r[..|r| - 1], e) + [r[|r| - 1]]
  }

  lemma {:induction false} InsertAdds(r: seq<Event>, e: Event)
    ensures multiset(Insert(r, e)) == multiset(r) + multiset{e}
  {
    if r != [] && r[|r| - 1].seqNo > e.seqNo {
      InsertAdds(r[..|r| - 1], e);
      assert r == r[..|r| - 1] + [r[|r| - 1]];
    }
  }

  lemma {:induction false} InsertOrdered(r: seq<Event>, e: Event)
    requires Ordered(r)
    ensures Ordered(Insert(r, e))
  {
    if r != [] && r[|r| - 1].seqNo > e.seqNo {
      var front, last := r[..|r| - 1], r[|r| - 1];
      InsertOrdered(front, e);
      InsertAdds(front, e);
      var t := Insert(front, e);
      forall i | 0 <= i < |t| ensures t[i].seqNo <= last.seqNo {
        assert t[i] in multiset(t);
        assert t[i] in front || t[i] == e;
      }
    }
  }

  class Runtime {
    var closed: bool
    var snaps: map<Id, Snapshot>
    var events: map<Id, seq<Event>>
    var cancels: set<Id>
    var cancelled: map<Id, bool>

    ghost function Value(): Store reads this {
      Store(snaps, events, cancels, set id | id in cancelled && cancelled[id])
    }

    constructor ()
      ensures Value() == EMPTY && !closed
    {
      closed, snaps, events, cancels, cancelled := false, map[], map[], {}, map[];
      new;
      assert (set id | id in cancelled && cancelled[id]) == {};
    }

    method RegisterJob(id: Id)
      modifies this
      ensures Value() == Register(old(Value()), id) && closed == old(closed)
    {
      cancels := cancels + {id};
      events := events[id := []];
      cancelled := cancelled[id := false];
      snaps := snaps[id := Snapshot(id, "running", 0, false, [], "")];
    }

    method Emit(id: Id, typ: string, payload: Doc, now: int) returns (ev: Event)
      modifies this
      ensures ev == NextEvent(old(Value()), id, typ, payload, now)
      ensures Value() == Append(old(Value()), ev) && closed == old(closed)
    {
      var log := if id in events then events[id] else [];
      ev := Event(|log| + 1, typ, id, now, "", 0, 0, payload);
      events := events[id := log + [ev]];
    }

    /** The engine's events come with their own numbers. */
    method Record(ev: Event)
      modifies this
      ensures Value() == Append(old(Value()), ev) && closed == old(closed)
    {
      events := events[ev.jobId := (if ev.jobId in events then events[ev.jobId] else []) + [ev]];
    }

    method IsCancelled(id: Id) returns (r: bool)
      ensures r <==> id in Value().cancelled
    {
      r := id in cancelled && cancelled[id];
    }

    method Finish(id: Id, status: string, seqNo: int, summaries: seq<Summary>)
      modifies this
      ensures Value() == Settle(old(Value()), id, status, seqNo, summaries) && closed == old(closed)
      ensures id in old(Value()).cancelled ==> snaps[id] == Snapshot(id, "cancelled", seqNo, false, summaries, "")
      ensures id !in old(Value()).cancelled ==> snaps[id] == Snapshot(id, status, seqNo, status == "partial", summaries, "")
    {
      var st := status;
      if id in cancelled && cancelled[id] { st := "cancelled"; }
      snaps := snaps[id := Snapshot(id, st, seqNo, st == "partial", summaries, "")];
    }

    /** The two parts of finish when nothing comes between them. */
    method FinishOutcome(id: Id, res: Outcome)
      modifies this
      ensures Value() == old(Value()).(snaps := old(Value()).snaps[id := Finished(old(Value()), id, id in old(Value()).cancelled, res)])
    {
      var flag := IsCancelled(id);
      var status, partial := "ok", res.partial;
      if flag {
        status, partial := "cancelled", false;
      } else if res.failed && !res.ok {
        status := "error";
      } else if res.partial {
        status := "partial";
      } else if !res.ok {
        status := "error";
      }
      var seqNo := 0;
      if id in events && |events[id]| > 0 {
        seqNo := events[id][|events[id]| - 1].seqNo;
      }
      if id in cancelled && cancelled[id] {
        status, partial := "cancelled", false;
      }
      snaps := snaps[id := Snapshot(id, status, seqNo, partial, res.summaries, res.summary)];
    }

    method Get(id: Id) returns (r: Option<Snapshot>)
      ensures r == if id in Value().snaps then Some(Value().snaps[id]) else None
    {
      if id !in snaps { return None; }
      return Some(snaps[id]);
    }

    /** The events above the cursor; None for an unknown job. */
    method Watch(id: Id, afterSeq: int) returns (r: Option<seq<Event>>)
      ensures r == if id in Value().events then Some(Above(Value().events[id], afterSeq)) else None
    {
      if id !in events { return None; }
      var evs, buf := events[id], [];
      for k := 0 to |evs|
        invariant buf == Above(evs[..k], afterSeq)
      {
        assert evs[..k + 1][..k] == evs[..k];
        if evs[k].seqNo > afterSeq { buf := buf + [evs[k]]; }
      }
      assert evs[..|evs|] == evs;
      return Some(buf);
    }

    /** Watch of the runtime around an engine: the events above the cursor, by number. */
    method WatchSorted(id: Id, afterSeq: int) returns (r: Option<seq<Event>>)
      ensures r == None <==> id !in Value().events
      ensures r.Some? ==> SortedRead(r.value, Above(Value().events[id], afterSeq))
    {
      var buf := Watch(id, afterSeq);
      if buf == None { return None; }
      var evs, t := buf.value, [];
      for k := 0 to |evs|
        invariant SortedRead(t, evs[..k])
      {
        assert evs[..k + 1] == evs[..k] + [evs[k]];
        InsertAdds(t, evs[k]);
        InsertOrdered(t, evs[k]);
        t := Insert(t, evs[k]);
      }
      assert evs[..|evs|] == evs;
      return Some(t);
    }

    /** The locked section of Cancel; the caller then cancels the job's context. */
    method Cancel(id: Id) returns (r: Option<Snapshot>)
      modifies this
      ensures r == None <==> id !in old(Value()).cancels
      ensures Value() == MarkCancelled(old(Value()), id) && closed == old(closed)
      ensures r.Some? ==> r.value == Value().snaps[id] && r.value.status == "cancelled" && r.value.jobId == id
    {
      if id !in cancels { return None; }
      var was := Value();
      cancelled := cancelled[id := true];
      var prev := if id in snaps then snaps[id] else Snapshot("", "", 0, false, [], "");
      var snap := Snapshot(id, "cancelled", prev.seqNo, prev.partial, prev.summaries, prev.answer);
      snaps := snaps[id := snap];
      assert Value().cancelled == was.cancelled + {id};
      return Some(snap);
    }

    /** Close names the jobs whose contexts it cancels, once. */
    method Close() returns (toCancel: set<Id>)
      modifies this
      ensures closed && Value() == old(Value())
      ensures toCancel == if old(closed) then {} else cancels
    {
      if closed { return {}; }
      closed := true;
      return cancels;
    }
  }
}
