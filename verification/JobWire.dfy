/** Job events as JSON objects (adapters/jobshttp/wire.go).  Numbers are compared by
    value, and timestamps go through a codec for section 5.6 of RFC 3339. */
module JobWire {
  import opened Collections
  import opened Text
  import opened Json
  import opened JobStore

  const INT64_MAX := 0x7fff_ffff_ffff_ffff
  const UINT64_MAX := 0xffff_ffff_ffff_ffff

  /** The payload keys that travel at the top level of the wire object. */
  predicate Lifted(k: string) {
    || k == "status" || k == "stage" || k == "pct" || k == "summary" || k == "trace_id" || k == "duration_ms"
    || k == "dead_end"
  }

  function Lift(): (r: seq<string>)
    ensures forall k :: k in r <==> Lifted(k)
    ensures forall i, j :: 0 <= i < j < |r| ==> r[i] != r[j]
  {
    var r := ["status", "stage", "pct", "summary", "trace_id", "duration_ms", "dead_end"];
    assert r[0] == "status" && r[1] == "stage" && r[2] == "pct" && r[3] == "summary";
    assert r[4] == "trace_id" && r[5] == "duration_ms" && r[6] == "dead_end";
    r
  }

  /** The keys that are never payload. */
  predicate Fixed(k: string) {
    || k == "schema" || k == "seq" || k == "job_id" || k == "ts" || k == "ts_ms" || k == "type" || k == "plan_epoch"
    || k == "unit_id" || k == "wave" || k == "extra"
  }

  /** Formats and parses a millisecond timestamp; an unreadable one parses to 0. */
  datatype Stamps = Stamps(format: int -> string, parse: string -> int) {
    /** This timestamp comes back; RFC 3339 has no text for years past 9999. */
    predicate Carries(t: int) { t != 0 ==> format(t) != "" && parse(format(t)) == t }
  }

  predicate IsInt(v: Value, lo: int, hi: int) {
    v.Num? && v.n.Floor as real == v.n && lo <= v.n.Floor <= hi
  }

  function Int(n: int): Value { Num(n as real) }

  // ---- typed decoding of one key; null counts as absent ---------------------------

  predicate Absent(d: Doc, k: string) { k !in d || d[k].Null? }

  predicate StringAt(d: Doc, k: string) { Absent(d, k) || d[k].Str? }

  predicate IntAt(d: Doc, k: string, lo: int, hi: int) { Absent(d, k) || IsInt(d[k], lo, hi) }

  predicate RealAt(d: Doc, k: string) { Absent(d, k) || d[k].Num? }

  predicate BoolAt(d: Doc, k: string) { Absent(d, k) || d[k].Bool? }

  predicate ObjAt(d: Doc, k: string) { Absent(d, k) || d[k].Obj? }

  function IntOf(d: Doc, k: string): int { if k in d && d[k].Num? then d[k].n.Floor else 0 }

  function ExtraOf(d: Doc): Doc { if "extra" in d && d["extra"].Obj? then d["extra"].fields else map[] }

  predicate LiftTyped(d: Doc) {
    && StringAt(d, "status") && StringAt(d, "stage") && StringAt(d, "summary") && StringAt(d, "trace_id")
    && RealAt(d, "pct") && IntAt(d, "duration_ms", -INT64_MAX - 1, INT64_MAX) && BoolAt(d, "dead_end")
  }

  predicate Decodes(d: Doc) {
    && LiftTyped(d)
    && IntAt(d, "schema", -INT64_MAX - 1, INT64_MAX) && IntAt(d, "seq", 0, UINT64_MAX)
    && IntAt(d, "plan_epoch", -INT64_MAX - 1, INT64_MAX) && IntAt(d, "wave", -INT64_MAX - 1, INT64_MAX)
    && StringAt(d, "job_id") && StringAt(d, "type") && StringAt(d, "unit_id") && ObjAt(d, "extra")
  }

  /** The zero of its type: such a key is omitted by the typed event. */
  predicate Zero(v: Value) {
    match v
    case Null => true
    case Str(s) => s == ""
    case Num(n) => n == 0.0
    case Bool(b) => !b
    case _ => false
  }

  /** tsMSFromWire */
  function TsFromWire(c: Stamps, d: Doc): int {
    if "ts" !in d then 0
    else match d["ts"]
         case Str(s) => if s == "" then 0 else c.parse(s)
         case Num(n) =>
           if n > 1000000000000.0 then Trunc(n)
           else if n.Floor as real == n && n < 100000000000.0 then Trunc(n)
           else Trunc(n * 1000.0)
         case _ => 0
  }

  /** A number of milliseconds reads as itself exactly when it is above ten to the twelfth or
      below ten to the eleventh; in between it is taken for seconds, as fractions are. */
  lemma {:induction false} NumericStamps(c: Stamps, t: int, n: real)
    ensures TsFromWire(c, map["ts" := Num(t as real)]) == t <==> t > 1_000_000_000_000 || t < 100_000_000_000
    ensures n <= 1000000000000.0 && (n.Floor as real != n || n >= 100000000000.0) ==>
      TsFromWire(c, map["ts" := Num(n)]) == Trunc(n * 1000.0)
    ensures n > 1000000000000.0 ==> TsFromWire(c, map["ts" := Num(n)]) == n.Floor
    ensures TsFromWire(c, map[]) == 0 && TsFromWire(c, map["ts" := Null]) == 0 && TsFromWire(c, map["ts" := Str("")]) == 0
  {
    var x := t as real;
    assert x.Floor == t && Trunc(x) == t;
    if t != 0 { assert Trunc(x * 1000.0) == 1000 * t by { assert x * 1000.0 == (1000 * t) as real; } }
  }

  /** The unsigned number lands in a signed field. */
  function Signed(n: int): int { if n > INT64_MAX then n - UINT64_MAX - 1 else n }

  /** Extra keys win; without any, the keys of the object that are not fixed ones do. */
  function BasePayload(d: Doc): Doc {
    if ExtraOf(d) != map[] then ExtraOf(d) else map k | k in d && !Fixed(k) :: d[k]
  }

  function PayloadFromWire(d: Doc): Doc {
    var base := BasePayload(d);
    map k | k in base.Keys + d.Keys && (k in base || (Lifted(k) && !Zero(d[k]))) :: if k in base then base[k] else d[k]
  }

  function WaveFromWire(d: Doc): int {
    var p := PayloadFromWire(d);
    if IntOf(d, "wave") != 0 then IntOf(d, "wave")
    else if "wave" in p && p["wave"].Num? then Trunc(p["wave"].n) else 0
  }

  /** EventFromWire; None stands for the watch-failed error. */
  function FromWire(c: Stamps, d: Doc): Option<Event> {
    if !Decodes(d) then None
    else Some(Event(Signed(IntOf(d, "seq")), AsString(d, "type"), AsString(d, "job_id"), TsFromWire(c, d),
                    AsString(d, "unit_id"), WaveFromWire(d), IntOf(d, "plan_epoch"), PayloadFromWire(d)))
  }

  /** An unsigned number lands on the signed one that is congruent to it. */
  lemma {:induction false} SignedWraps(n: int)
    requires 0 <= n < 0x1_0000_0000_0000_0000
    ensures -0x8000_0000_0000_0000 <= Signed(n) < 0x8000_0000_0000_0000
    ensures Signed(n) == n || Signed(n) == n - 0x1_0000_0000_0000_0000
  {
  }

  /** A key that is there and not null. */
  ghost predicate Set(d: Doc, k: string) { k in d && d[k] != Null }

  ghost predicate WholeIn(v: Value, lo: int, hi: int) { exists n: int :: lo <= n < hi && v == Int(n) }

  /** The decoder turns down exactly the objects in which some key has a value of another
      type than the wire gives it. */
  lemma {:induction false} TurnedDown(c: Stamps, d: Doc)
    ensures FromWire(c, d) == None <==>
      || (exists k :: k in {"status", "stage", "summary", "trace_id", "job_id", "type", "unit_id"} && Set(d, k) && !d[k].Str?)
      || (exists k :: k in {"duration_ms", "schema", "plan_epoch", "wave"} && Set(d, k)
                      && !WholeIn(d[k], -0x8000_0000_0000_0000, 0x8000_0000_0000_0000))
      || (Set(d, "seq") && !WholeIn(d["seq"], 0, 0x1_0000_0000_0000_0000))
      || (Set(d, "pct") && !d["pct"].Num?) || (Set(d, "dead_end") && !d["dead_end"].Bool?) || (Set(d, "extra") && !d["extra"].Obj?)
  {
    forall k | k in d ensures IsInt(d[k], -INT64_MAX - 1, INT64_MAX) <==> WholeIn(d[k], -0x8000_0000_0000_0000, 0x8000_0000_0000_0000) {
      WholeNumbers(d[k], -INT64_MAX - 1, INT64_MAX);
    }
    if "seq" in d { WholeNumbers(d["seq"], 0, UINT64_MAX); }
    hide IsInt, WholeIn;
  }

  lemma WholeNumbers(v: Value, lo: int, hi: int)
    ensures IsInt(v, lo, hi) <==> WholeIn(v, lo, hi + 1)
  {
    if IsInt(v, lo, hi) {
      assert v == Int(v.n.Floor);
    }
    forall n: int | v == Int(n) ensures v.Num? && v.n.Floor == n {}
  }

  lemma FixedIsNotLifted(k: string)
    ensures !(Fixed(k) && Lifted(k))
  {
    if Fixed(k) { assert |k| in {6, 3, 2, 5, 4, 10, 7}; }
  }

  /** The payload of any object: what its "extra" holds, with the lifted keys that are not
      zero added; without extra keys all of it but the ten keys that are never payload. */
  lemma {:induction false} PayloadKeys(d: Doc, k: string)
    ensures ExtraOf(d) == map[] ==>
      (k in PayloadFromWire(d) <==>
         && k in d && k !in {"schema", "seq", "job_id", "ts", "ts_ms", "type", "plan_epoch", "unit_id", "wave", "extra"})
    ensures ExtraOf(d) != map[] ==>
      (k in PayloadFromWire(d) <==>
         || k in ExtraOf(d)
         || (k in {"status", "stage", "pct", "summary", "trace_id", "duration_ms", "dead_end"} && k in d
             && d[k] !in {Null, Str(""), Num(0.0), Bool(false)}))
    ensures k in PayloadFromWire(d) ==> PayloadFromWire(d)[k] == if k in ExtraOf(d) then ExtraOf(d)[k] else d[k]
  {
    FixedIsNotLifted(k);
    if k in d { assert Zero(d[k]) <==> d[k] in {Null, Str(""), Num(0.0), Bool(false)}; }
  }

  /** The payload loop of EventFromWire over the keys of the object in any order, and the
      fill-ins after it. */
  method PayloadLoop(d: Doc) returns (payload: Doc)
    ensures payload == PayloadFromWire(d)
  {
    hide Fixed, Lifted, Zero, Lift;
    payload := map[];
    if ExtraOf(d) != map[] {
      payload := ExtraOf(d);
    } else {
      var todo := d.Keys;
      while todo != {}
        invariant todo <= d.Keys
        invariant payload == map k | k in d && k !in todo && !Fixed(k) :: d[k]
      {
        var k :| k in todo;
        todo := todo - {k};
        if !Fixed(k) { payload := payload[k := d[k]]; }
      }
      assert payload == map k | k in d && !Fixed(k) :: d[k];
    }
    ghost var base := payload;
    assert base == BasePayload(d);
    for n := 0 to |Lift()|
      invariant payload == map k | k in base.Keys + d.Keys && (k in base || (k in Lift()[..n] && !Zero(d[k])))
                              :: if k in base then base[k] else d[k]
    {
      assert Lift()[..n + 1] == Lift()[..n] + [Lift()[n]];
      var k := Lift()[n];
      if k in d && !Zero(d[k]) && k !in payload { payload := payload[k := d[k]]; }
    }
    assert Lift()[..|Lift()|] == Lift();
  }

  // ---- the printer -----------------------------------------------------------------

  function Residual(payload: Doc): Doc {
    map k | k in payload && !Lifted(k) && k != "wave" :: payload[k]
  }

  function Always(c: Stamps, e: Event): (w: Doc)
    ensures forall k :: k in w ==> Fixed(k) && k != "extra" && k != "plan_epoch" && k != "unit_id" && k != "wave"
    ensures "seq" in w && w["seq"] == Int(e.seqNo)
    ensures "ts" in w && w["ts"] == (if e.ts == 0 then Int(0) else Str(c.format(e.ts)))
    ensures "type" in w && w["type"] == Str(e.typ)
    ensures "job_id" in w && w["job_id"] == Str(e.jobId)
    ensures "schema" in w && w["schema"] == Int(1)
  {
    map["schema" := Int(1), "seq" := Int(e.seqNo), "job_id" := Str(e.jobId), "type" := Str(e.typ),
        "ts" := if e.ts == 0 then Int(0) else Str(c.format(e.ts))]
  }

  function When(present: bool, k: string, v: Value): Doc {
    if present then map[k := v] else map[]
  }

  function Head(c: Stamps, e: Event): Doc {
    Always(c, e) + When(e.planEpoch != 0, "plan_epoch", Int(e.planEpoch)) + When(e.unitId != "", "unit_id", Str(e.unitId))
    + When(e.wave != 0, "wave", Int(e.wave))
  }

  /** Optional keys do not disturb the others. */
  lemma HeadAt(c: Stamps, e: Event, k: string)
    ensures var w := Head(c, e);
      && (k in w ==> Fixed(k) && k != "extra")
      && (k in Always(c, e) ==> k in w && w[k] == Always(c, e)[k])
  {
    hide Int, Always, Fixed;
    OptionalKeys();
    var a := Always(c, e);
    assert k in a ==> Fixed(k) && k != "extra" && k != "plan_epoch" && k != "unit_id" && k != "wave";
  }

  lemma OptionalKeys()
    ensures Fixed("plan_epoch") && Fixed("unit_id") && Fixed("wave")
    ensures "plan_epoch" != "unit_id" && "unit_id" != "wave" && "plan_epoch" != "wave"
    ensures "plan_epoch" != "extra" && "unit_id" != "extra" && "wave" != "extra"
  {
    assert |"plan_epoch"| == 10 && |"unit_id"| == 7 && |"wave"| == 4 && |"extra"| == 5;
  }

  lemma HeadOptional(c: Stamps, e: Event)
    ensures var w := Head(c, e);
      && (if e.planEpoch == 0 then "plan_epoch" !in w else "plan_epoch" in w && w["plan_epoch"] == Int(e.planEpoch))
      && (if e.unitId == "" then "unit_id" !in w else "unit_id" in w && w["unit_id"] == Str(e.unitId))
      && (if e.wave == 0 then "wave" !in w else "wave" in w && w["wave"] == Int(e.wave))
  {
    hide Always, Int, Fixed;
    OptionalKeys();
  }

  function ToWire(c: Stamps, e: Event): Doc {
    var w := Head(c, e) + Taken(e.payload, Lift());
    if Residual(e.payload) != map[] then w["extra" := Obj(Residual(e.payload))] else w
  }

  function Taken(p: Doc, ks: seq<string>): Doc { map k | k in p && k in ks :: p[k] }

  function Kept(p: Doc, ks: seq<string>): Doc { map k | k in p && k !in ks :: p[k] }

  lemma MoveOne(p: Doc, ks: seq<string>, k: string)
    requires k !in ks
    ensures k in p <==> k in Kept(p, ks)
    ensures k in p ==> Kept(p, ks)[k] == p[k] && Taken(p, ks + [k]) == Taken(p, ks)[k := p[k]]
    ensures k !in p ==> Taken(p, ks + [k]) == Taken(p, ks)
    ensures Kept(p, ks + [k]) == Kept(p, ks) - {k}
  {
    var t, r := Taken(p, ks + [k]), Kept(p, ks + [k]);
    assert k !in p ==> t == Taken(p, ks);
    assert k in p ==> t == Taken(p, ks)[k := p[k]];
    assert r == Kept(p, ks) - {k};
  }

  /** EventToWire moves the lifted keys out of its copy of the payload one by one. */
  method EventToWire(c: Stamps, e: Event) returns (w: Doc)
    ensures w == ToWire(c, e)
  {
    hide Head, Lift, Lifted, Taken, Kept;
    var payload := e.payload;
    ghost var head := Head(c, e);
    w := Head(c, e);
    var lift := Lift();
    assert Taken(e.payload, []) == map[] && Kept(e.payload, []) == e.payload by { NothingMoved(e.payload); }
    for n := 0 to |lift|
      invariant w == head + Taken(e.payload, lift[..n])
      invariant payload == Kept(e.payload, lift[..n])
    {
      assert lift[..n + 1] == lift[..n] + [lift[n]];
      var k := lift[n];
      MoveOne(e.payload, lift[..n], k);
      if k in payload {
        ghost var t := Taken(e.payload, lift[..n]);
        assert (head + t)[k := payload[k]] == head + t[k := payload[k]];
        w := w[k := payload[k]];
        payload := payload - {k};
      } else {
        assert payload - {k} == payload;
      }
    }
    assert lift[..|lift|] == lift;
    payload := payload - {"wave"};
    ResidualIsKept(e.payload);
    if payload != map[] { w := w["extra" := Obj(payload)]; }
  }

  lemma NothingMoved(p: Doc)
    ensures Taken(p, []) == map[] && Kept(p, []) == p
  {
  }

  lemma ResidualIsKept(p: Doc)
    ensures Residual(p) == Kept(p, Lift()) - {"wave"}
  {
    hide Lifted, Lift;
  }

  // ---- the round trip ----------------------------------------------------------------

  /** What the typed event can carry. */
  predicate WellTyped(e: Event) {
    && LiftTyped(e.payload) && 0 <= e.seqNo <= INT64_MAX
    && -INT64_MAX - 1 <= e.planEpoch <= INT64_MAX && -INT64_MAX - 1 <= e.wave <= INT64_MAX
  }

  /** The payload that comes back: no "wave" key, and next to residual keys no lifted key
      with a zero value. */
  function Normal(e: Event): Event {
    e.(payload := map k | k in e.payload && k != "wave"
        && (Lifted(k) && Residual(e.payload) != map[] ==> !Zero(e.payload[k])) :: e.payload[k])
  }

  predicate IsNormal(e: Event) {
    && "wave" !in e.payload
    && (Residual(e.payload) != map[] ==> forall k :: Lifted(k) && k in e.payload ==> !Zero(e.payload[k]))
  }

  /** Fixed keys come from the head, lifted keys from the payload, and the rest is under
      "extra". */
  lemma WireAt(c: Stamps, e: Event, k: string)
    ensures var w := ToWire(c, e);
      && ExtraOf(w) == Residual(e.payload) && ObjAt(w, "extra")
      && (k in w ==> Fixed(k) || Lifted(k))
      && (Lifted(k) ==> (k in w <==> k in e.payload) && (k in w ==> w[k] == e.payload[k]))
      && (Fixed(k) && k != "extra" ==> (k in w <==> k in Head(c, e)) && (k in w ==> w[k] == Head(c, e)[k]))
  {
    hide Head, Lifted, Residual;
    FixedIsNotLifted(k);
    FixedIsNotLifted("extra");
    HeadAt(c, e, k);
    HeadAt(c, e, "extra");
  }

  lemma PayloadBack(c: Stamps, e: Event)
    ensures PayloadFromWire(ToWire(c, e)) == Normal(e).payload
  {
    hide ToWire, Zero, Residual, Lifted, Fixed;
    var w := ToWire(c, e);
    var r := Residual(e.payload);
    ResidualKeys(e.payload);
    WireAt(c, e, "extra");
    forall k ensures k in PayloadFromWire(w) <==> k in Normal(e).payload
             ensures k in Normal(e).payload ==> PayloadFromWire(w)[k] == e.payload[k]
    {
      WireAt(c, e, k);
      FixedIsNotLifted(k);
      WaveIsFixed();
    }
  }

  lemma WaveIsFixed()
    ensures Fixed("wave")
  {
  }

  lemma ResidualKeys(p: Doc)
    ensures forall k :: k in Residual(p) <==> k in p && !Lifted(k) && k != "wave"
    ensures forall k :: k in Residual(p) ==> Residual(p)[k] == p[k]
    ensures Residual(p) == map[] ==> forall k :: k in p ==> Lifted(k) || k == "wave"
  {
  }

  lemma NoWave(e: Event)
    ensures "wave" !in Normal(e).payload
  {
  }

  lemma WireTyped(c: Stamps, e: Event)
    ensures LiftTyped(ToWire(c, e)) <==> LiftTyped(e.payload)
  {
    hide ToWire, Residual, Head;
    var w := ToWire(c, e);
    forall k | Lifted(k) ensures (k in w <==> k in e.payload) && (k in w ==> w[k] == e.payload[k]) {
      WireAt(c, e, k);
    }
  }

  lemma WireFields(c: Stamps, e: Event)
    ensures var w := ToWire(c, e);
      && StringAt(w, "type") && AsString(w, "type") == e.typ && StringAt(w, "job_id") && AsString(w, "job_id") == e.jobId
      && StringAt(w, "unit_id") && AsString(w, "unit_id") == e.unitId
      && "seq" in w && w["seq"] == Int(e.seqNo) && "schema" in w && w["schema"] == Int(1)
      && (if e.planEpoch == 0 then "plan_epoch" !in w else "plan_epoch" in w && w["plan_epoch"] == Int(e.planEpoch))
      && (if e.wave == 0 then "wave" !in w else "wave" in w && w["wave"] == Int(e.wave))
      && "ts" in w && w["ts"] == (if e.ts == 0 then Int(0) else Str(c.format(e.ts)))
  {
    hide ToWire, Residual, Head, Lifted;
    WireAt(c, e, "type");
    WireAt(c, e, "job_id");
    WireAt(c, e, "unit_id");
    WireAt(c, e, "seq");
    WireAt(c, e, "schema");
    WireAt(c, e, "plan_epoch");
    WireAt(c, e, "wave");
    WireAt(c, e, "ts");
    HeadAt(c, e, "type");
    HeadAt(c, e, "job_id");
    HeadAt(c, e, "seq");
    HeadAt(c, e, "schema");
    HeadAt(c, e, "ts");
    HeadOptional(c, e);
  }

  /** What comes back from the wire is the normal form of what went out; an event that is
      not well typed is an error. */
  lemma {:induction false} WireRoundTrip(c: Stamps, e: Event)
    requires c.Carries(e.ts) && e.seqNo <= INT64_MAX
    ensures FromWire(c, ToWire(c, e)) == if WellTyped(e) then Some(Normal(e)) else None
  {
    hide ToWire, Zero, Residual, PayloadFromWire, Lifted;
    var w := ToWire(c, e);
    PayloadBack(c, e);
    WireTyped(c, e);
    WireFields(c, e);
    WireAt(c, e, "extra");
    hide LiftTyped;
    NoWave(e);
  }

  /** The exact domain of the identity. */
  lemma {:induction false} WireIdentity(c: Stamps, e: Event)
    requires c.Carries(e.ts) && e.seqNo <= INT64_MAX
    ensures FromWire(c, ToWire(c, e)) == Some(e) <==> WellTyped(e) && IsNormal(e)
  {
    hide ToWire, Zero, Residual, FromWire;
    WireRoundTrip(c, e);
    ResidualKeys(e.payload);
    var p := Normal(e).payload;
    if IsNormal(e) {
      assert p == e.payload;
    } else {
      var k :| k in e.payload && (k == "wave" || (Lifted(k) && Residual(e.payload) != map[] && Zero(e.payload[k])));
      assert k !in p;
    }
  }

  /** Next to a payload key of its own, a percentage of zero does not come back. */
  lemma {:induction false} ZeroIsLost(c: Stamps, e: Event)
    requires c.Carries(e.ts) && e.seqNo <= INT64_MAX
    ensures var z := e.(payload := map["note" := Str("x"), "pct" := Num(0.0)]);
      FromWire(c, ToWire(c, z)) != Some(z)
  {
    hide ToWire, FromWire;
    var z := e.(payload := map["note" := Str("x"), "pct" := Num(0.0)]);
    assert "note" in Residual(z.payload) && Lifted("pct") && "pct" in z.payload && Zero(z.payload["pct"]);
    hide Residual, Lifted, Zero, WellTyped;
    WireIdentity(c, z);
  }

  /** The wire is idempotent: a normal form goes through unchanged. */
  lemma {:induction false} NormalIsNormal(e: Event)
    ensures IsNormal(Normal(e)) && Normal(Normal(e)) == Normal(e)
    ensures WellTyped(e) ==> WellTyped(Normal(e))
  {
    hide Zero;
    assert Residual(Normal(e).payload) == Residual(e.payload);
    assert Normal(Normal(e)).payload == Normal(e).payload;
  }
}
