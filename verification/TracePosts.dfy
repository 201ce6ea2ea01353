/** The session trace of a turn: which hops are posted, in which order, and with what
    account (application/projectors/session_trace.go). */
module TracePosts {
  import opened Collections
  import opened Text
  import opened Json
  import H = Hooks

  const SNIPPET_MAX := 2000

  /** How dynamic values print, and which of them count as integers. */
  datatype Forms = Forms(sprint: Value -> string, asInt: Value -> Option<int>, lower: string -> string)

  /** A normalized hop; an absent status is Null, and `more` holds the optional keys that
      are present. */
  datatype Hop = Hop(reqId: string, name: string, status: Value, snippet: string, url: string, more: Doc)

  const BLANK := Hop("", "", Null, "", "", map[])

  function Get(m: Doc, key: string): Value { if key in m then m[key] else Null }

  function AsText(f: Forms, v: Value): string {
    match v
    case Null => ""
    case Str(s) => s
    case _ => f.sprint(v)
  }

  function Clip(s: string): string { if |s| > SNIPPET_MAX then s[..SNIPPET_MAX] else s }

  function Or(a: string, b: string): string { if a != "" then a else b }

  function FirstSet(a: Value, b: Value, c: Value): Value {
    if !a.Null? then a else if !b.Null? then b else c
  }

  function Ms(f: Forms, v: Value): Doc {
    if v.Null? then map[]
    else match f.asInt(v)
         case None => map[]
         case Some(n) => map["ms" := Num(n as real)]
  }

  predicate Kept(key: string) {
    key in {"step_costs", "result_size", "pipeline_status", "steps_executed", "bytes", "error"}
  }

  /** NormalizeHop: maps and positional tuples become one shape. */
  function NormalizeHop(f: Forms, raw: Value): Hop {
    match raw
    case Obj(m) =>
      Hop(TrimSpace(AsText(f, Get(m, "req_id"))),
          Or(TrimSpace(AsText(f, Get(m, "name"))), TrimSpace(AsText(f, Get(m, "verb")))),
          if "status" in m then m["status"] else Get(m, "tstatus"),
          Clip(AsText(f, FirstSet(Get(m, "snippet"), Get(m, "result_text"), Get(m, "snip")))),
          Or(AsText(f, Get(m, "url")), AsText(f, Get(m, "dispatch_url"))),
          Ms(f, Get(m, "ms")) + map k | k in m && Kept(k) && !m[k].Null? :: m[k])
    case Arr(s) =>
      Hop(if |s| > 0 then TrimSpace(AsText(f, s[0])) else "",
          if |s| > 1 then TrimSpace(AsText(f, s[1])) else "",
          if |s| > 2 then s[2] else Null,
          if |s| > 3 then Clip(AsText(f, s[3])) else "",
          if |s| > 4 then AsText(f, s[4]) else "",
          if |s| > 5 then Ms(f, s[5]) else map[])
    case _ => BLANK
  }

  /** A hop that says nothing is blank, in any form. */
  lemma {:induction false} BlankHops(f: Forms)
    ensures NormalizeHop(f, Null) == NormalizeHop(f, Arr([])) == NormalizeHop(f, Obj(map[])) == Hop("", "", Null, "", "", map[])
  {
    BlankTrim();
    hide TrimSpace;
    var none: Doc := map[];
    assert (map k | k in none && Kept(k) && !none[k].Null? :: none[k]) == map[];
  }

  /** NormalizeHop, key by key. */
  method NormalizedHop(f: Forms, raw: Value) returns (hop: Hop)
    ensures hop == NormalizeHop(f, raw)
  {
    hide TrimSpace;
    hop := Hop("", "", Null, "", "", map[]);
    if raw.Obj? {
      var m := raw.fields;
      var name := TrimSpace(AsText(f, Get(m, "name")));
      if name == "" { name := TrimSpace(AsText(f, Get(m, "verb"))); }
      var status := Get(m, "status");
      if "status" !in m { status := Get(m, "tstatus"); }
      var snip := Get(m, "snippet");
      if snip.Null? { snip := Get(m, "result_text"); }
      if snip.Null? { snip := Get(m, "snip"); }
      var url := AsText(f, Get(m, "url"));
      if url == "" { url := AsText(f, Get(m, "dispatch_url")); }
      var more := MoreOf(f, m);
      hop := Hop(TrimSpace(AsText(f, Get(m, "req_id"))), name, status, Clip(AsText(f, snip)), url, more);
    } else if raw.Arr? {
      var items := raw.items;
      if |items| > 0 { hop := hop.(reqId := TrimSpace(AsText(f, items[0]))); }
      if |items| > 1 { hop := hop.(name := TrimSpace(AsText(f, items[1]))); }
      if |items| > 2 { hop := hop.(status := items[2]); }
      if |items| > 3 { hop := hop.(snippet := Clip(AsText(f, items[3]))); }
      if |items| > 4 { hop := hop.(url := AsText(f, items[4])); }
      if |items| > 5 && !items[5].Null? {
        var ms := f.asInt(items[5]);
        if ms.Some? { hop := hop.(more := map["ms" := Num(ms.value as real)]); }
      }
    }
  }

  /** The optional keys of a hop: its time, and those that are copied when set. */
  method MoreOf(f: Forms, m: Doc) returns (more: Doc)
    ensures more == Ms(f, Get(m, "ms")) + map k | k in m && Kept(k) && !m[k].Null? :: m[k]
  {
    more := map[];
    if !Get(m, "ms").Null? {
      var ms := f.asInt(Get(m, "ms"));
      if ms.Some? { more := map["ms" := Num(ms.value as real)]; }
    }
    var keys := ["step_costs", "result_size", "pipeline_status", "steps_executed", "bytes", "error"];
    KeptKeys(keys);
    more := CopySet(m, more, keys);
  }

  function Copied(m: Doc, keys: seq<string>): Doc { map k | k in m && k in keys && !m[k].Null? :: m[k] }

  method CopySet(m: Doc, first: Doc, keys: seq<string>) returns (more: Doc)
    ensures more == first + Copied(m, keys)
  {
    NothingCopied(m, keys);
    hide Copied;
    more := first;
    for n := 0 to |keys|
      invariant more == first + Copied(m, keys[..n])
    {
      CopyOne(m, first, keys[..n], keys[n]);
      assert keys[..n + 1] == keys[..n] + [keys[n]];
      if !Get(m, keys[n]).Null? { more := more[keys[n] := m[keys[n]]]; }
    }
    assert keys[..|keys|] == keys;
  }

  lemma NothingCopied(m: Doc, keys: seq<string>)
    ensures Copied(m, keys[..0]) == map[]
  {
  }

  lemma CopyOne(m: Doc, first: Doc, keys: seq<string>, key: string)
    ensures first + Copied(m, keys + [key]) ==
      if Get(m, key).Null? then first + Copied(m, keys) else (first + Copied(m, keys))[key := m[key]]
  {
    var one := if Get(m, key).Null? then Copied(m, keys) else Copied(m, keys)[key := m[key]];
    assert Copied(m, keys + [key]) == one;
    hide Copied;
  }

  lemma KeptKeys(keys: seq<string>)
    requires keys == ["step_costs", "result_size", "pipeline_status", "steps_executed", "bytes", "error"]
    ensures forall k :: Kept(k) <==> k in keys
  {
    assert keys[0] == "step_costs" && keys[1] == "result_size" && keys[2] == "pipeline_status";
    assert keys[3] == "steps_executed" && keys[4] == "bytes" && keys[5] == "error";
  }

  function Ids(hops: seq<Hop>): seq<string> {
    seq(|hops|, i requires 0 <= i < |hops| => hops[i].reqId)
  }

  /** The raw hops in normal form. */
  function Normals(f: Forms, raws: seq<Value>): seq<Hop> {
    seq(|raws|, i requires 0 <= i < |raws| => NormalizeHop(f, raws[i]))
  }

  /** The ids of hops in order, without blanks. */
  function RawIds(hops: seq<Hop>): seq<string>
    decreases |hops|
  {
    if hops == [] then []
    else
      var front, id := RawIds(hops[..|hops| - 1]), hops[|hops| - 1].reqId;
      if id == "" then front else front + [id]
  }

  /** A hop is the first one with its id. */
  ghost predicate IsFirst(hops: seq<Hop>, h: Hop) {
    exists i :: 0 <= i < |hops| && hops[i] == h && forall j :: 0 <= j < i ==> hops[j].reqId != h.reqId
  }

  lemma IsFirstGrows(hops: seq<Hop>, hop: Hop, h: Hop)
    requires IsFirst(hops, h)
    ensures IsFirst(hops + [hop], h)
  {
    var i :| 0 <= i < |hops| && hops[i] == h && forall j :: 0 <= j < i ==> hops[j].reqId != h.reqId;
    assert (hops + [hop])[i] == hops[i];
  }

  lemma {:induction false} RawIdSeen(hops: seq<Hop>, j: nat)
    requires j < |hops| && hops[j].reqId != ""
    ensures hops[j].reqId in RawIds(hops)
    decreases |hops|
  {
    if j < |hops| - 1 { RawIdSeen(hops[..|hops| - 1], j); }
  }

  lemma NewIsFirst(hops: seq<Hop>, hop: Hop)
    requires hop.reqId != "" && hop.reqId !in RawIds(hops)
    ensures IsFirst(hops + [hop], hop)
  {
    var all := hops + [hop];
    assert all[|hops|] == hop;
    forall j | 0 <= j < |hops| ensures all[j].reqId != hop.reqId {
      if hops[j].reqId == hop.reqId { RawIdSeen(hops, j); }
    }
  }

  /** The first hop of every id, blanks dropped. */
  function Unique(hops: seq<Hop>): seq<Hop>
    decreases |hops|
  {
    if hops == [] then []
    else
      var front, hop := Unique(hops[..|hops| - 1]), hops[|hops| - 1];
      if hop.reqId == "" || hop.reqId in Ids(front) then front else front + [hop]
  }

  function Normalized(f: Forms, raws: seq<Value>): seq<Hop> { Unique(Normals(f, raws)) }

  /** NormalizeHops */
  method NormalizeHops(f: Forms, raws: seq<Value>) returns (out: seq<Hop>)
    ensures out == Normalized(f, raws)
    ensures Ids(out) == H.FirstSeen(RawIds(Normals(f, raws)))
    ensures forall i :: 0 <= i < |out| ==> out[i].reqId != "" && IsFirst(Normals(f, raws), out[i])
  {
    hide NormalizeHop;
    out := [];
    for n := 0 to |raws|
      invariant out == Unique(Normals(f, raws)[..n])
    {
      var hop := NormalizedHop(f, raws[n]);
      assert Normals(f, raws)[..n + 1][..n] == Normals(f, raws)[..n];
      if hop.reqId != "" && hop.reqId !in Ids(out) { out := out + [hop]; }
    }
    assert Normals(f, raws)[..|raws|] == Normals(f, raws);
    UniqueIsFirst(Normals(f, raws));
  }

  /** One hop for every id that occurs, the first of it, in first-seen order. */
  lemma {:induction false} UniqueIsFirst(hops: seq<Hop>)
    ensures Ids(Unique(hops)) == H.FirstSeen(RawIds(hops))
    ensures forall i :: 0 <= i < |Unique(hops)| ==> Unique(hops)[i].reqId != "" && IsFirst(hops, Unique(hops)[i])
    decreases |hops|
  {
    hide H.FirstSeen, IsFirst;
    if hops == [] {
      NoIds();
    } else {
      var front, hop := hops[..|hops| - 1], hops[|hops| - 1];
      UniqueIsFirst(front);
      assert hops == front + [hop];
      var out := Unique(front);
      forall i | 0 <= i < |out| ensures IsFirst(hops, out[i]) {
        IsFirstGrows(front, hop, out[i]);
      }
      if hop.reqId != "" {
        H.FirstSeenPush(RawIds(front), hop.reqId);
        if hop.reqId !in Ids(out) {
          NewIsFirst(front, hop);
          assert Ids(out + [hop]) == Ids(out) + [hop.reqId];
        }
      }
    }
  }

  lemma NoIds()
    ensures H.FirstSeen([]) == []
  {
  }

  // ---- the primary hop --------------------------------------------------------------------------

  predicate Truthy(v: Value) {
    match v
    case Null => false
    case Str(s) => s != ""
    case Bool(b) => b
    case Arr(items) => items != []
    case Obj(m) => m != map[]
    case Num(n) => n != 0.0
  }

  /** statusOK: no status counts as success. */
  predicate StatusOk(f: Forms, status: Value) {
    if status.Null? then true
    else match f.asInt(status)
         case Some(n) => 0 < n < 400
         case None => f.lower(AsText(f, status)) in {"ok", "200", "201", "204"}
  }

  /** Which statuses count as success, and which values as set. */
  lemma {:induction false} StatusMeans(f: Forms, status: Value, n: int)
    ensures StatusOk(f, Null)
    ensures !status.Null? && f.asInt(status) == Some(n) ==> (StatusOk(f, status) <==> 1 <= n <= 399)
    ensures !status.Null? && f.asInt(status) == None ==>
      var text := f.lower(if status.Str? then status.s else f.sprint(status));
      StatusOk(f, status) <==> text == "ok" || text == "200" || text == "201" || text == "204"
    ensures !Truthy(status) <==>
      status in {Null, Bool(false), Num(0.0)} || status == Str("") || status == Arr([]) || status == Obj(map[])
  {
  }

  /** The result sizes of the steps that state one. */
  function StepSizes(f: Forms, costs: seq<Value>): seq<int>
    decreases |costs|
  {
    if costs == [] then []
    else
      var front, c := StepSizes(f, costs[..|costs| - 1]), costs[|costs| - 1];
      if !c.Obj? || Get(c.fields, "result_size").Null? then front
      else match f.asInt(c.fields["result_size"])
           case None => front
           case Some(n) => front + [n]
  }

  function Sum(ns: seq<int>): int
    decreases |ns|
  {
    if ns == [] then 0 else Sum(ns[..|ns| - 1]) + ns[|ns| - 1]
  }

  /** resultSizeOf: the hop's own size, or else the sum over its steps. */
  function ResultSize(f: Forms, h: Hop): Option<int> {
    var own := Get(h.more, "result_size");
    if !own.Null? && f.asInt(own).Some? then f.asInt(own)
    else
      var costs := Get(h.more, "step_costs");
      if !costs.Arr? || StepSizes(f, costs.items) == [] then None else Some(Sum(StepSizes(f, costs.items)))
  }

  method ResultSizeOf(f: Forms, h: Hop) returns (r: Option<int>)
    ensures r == ResultSize(f, h)
  {
    var own := Get(h.more, "result_size");
    if !own.Null? {
      var n := f.asInt(own);
      if n.Some? { return n; }
    }
    var costs := Get(h.more, "step_costs");
    if !costs.Arr? || |costs.items| == 0 { return None; }
    var total, any := 0, false;
    for k := 0 to |costs.items|
      invariant total == Sum(StepSizes(f, costs.items[..k])) && (any <==> StepSizes(f, costs.items[..k]) != [])
    {
      assert costs.items[..k + 1][..k] == costs.items[..k];
      var c := costs.items[k];
      if c.Obj? && !Get(c.fields, "result_size").Null? {
        var n := f.asInt(c.fields["result_size"]);
        if n.Some? {
          ghost var before := StepSizes(f, costs.items[..k]);
          assert (before + [n.value])[..|before|] == before;
          total, any := total + n.value, true;
        }
      }
    }
    assert costs.items[..|costs.items|] == costs.items;
    return if any then Some(total) else None;
  }

  /** What the score looks at, most important first. */
  datatype Score = Score(err: bool, rows: bool, searchFind: bool, costs: bool, body: bool, plain: bool)

  const SEARCH_FIND := {"search", "find", "find_nodes", "text_search", "hybrid_search", "project", "get", "get_by_keys"}

  function ScoreOf(f: Forms, h: Hop): Score {
    var name := f.lower(h.name);
    var size := ResultSize(f, h);
    Score(!StatusOk(f, h.status), size.Some? && size.value > 0, name in SEARCH_FIND, Truthy(Get(h.more, "step_costs")),
          h.snippet != "" || Truthy(Get(h.more, "bytes")), name != "pipeline")
  }

  /** hopScoreOf, fact by fact. */
  method HopScore(f: Forms, h: Hop) returns (score: Score)
    ensures score == ScoreOf(f, h)
  {
    hide StatusOk, ResultSize;
    var name := f.lower(h.name);
    score := Score(false, false, false, false, false, true);
    if !StatusOk(f, h.status) { score := score.(err := true); }
    var size := ResultSizeOf(f, h);
    if size.Some? && size.value > 0 { score := score.(rows := true); }
    var names := {"search", "find", "find_nodes", "text_search", "hybrid_search", "project", "get", "get_by_keys"};
    if name in names { score := score.(searchFind := true); }
    if Truthy(Get(h.more, "step_costs")) { score := score.(costs := true); }
    if |h.snippet| > 0 || Truthy(Get(h.more, "bytes")) { score := score.(body := true); }
    if name == "pipeline" { score := score.(plain := false); }
  }

  function Bit(b: bool): int { if b then 1 else 0 }

  /** The lexicographic order, field by field. */
  predicate Greater(a: Score, b: Score) {
    if a.err != b.err then a.err
    else if a.rows != b.rows then a.rows
    else if a.searchFind != b.searchFind then a.searchFind
    else if a.costs != b.costs then a.costs
    else if a.body != b.body then a.body
    else a.plain && !b.plain
  }

  /** The score as one number. */
  function Weight(s: Score): int {
    32 * Bit(s.err) + 16 * Bit(s.rows) + 8 * Bit(s.searchFind) + 4 * Bit(s.costs) + 2 * Bit(s.body) + Bit(s.plain)
  }

  /** The order is that of the weights, and scores of one weight are equal: a total
      order, in which no later field outweighs an earlier one. */
  lemma {:induction false} OrderIsTotal(a: Score, b: Score)
    ensures Greater(a, b) <==> Weight(a) > Weight(b)
    ensures a == b <==> Weight(a) == Weight(b)
  {
  }

  /** The earliest of the best: nothing scores higher, and everything before scores
      lower. */
  ghost predicate IsPrimary(f: Forms, hops: seq<Hop>, k: int) {
    && 0 <= k < |hops|
    && (forall i :: 0 <= i < |hops| ==> !Greater(ScoreOf(f, hops[i]), ScoreOf(f, hops[k])))
    && (forall i :: 0 <= i < k ==> Greater(ScoreOf(f, hops[k]), ScoreOf(f, hops[i])))
  }

  lemma PrimaryUnique(f: Forms, hops: seq<Hop>, k: int, m: int)
    requires IsPrimary(f, hops, k) && IsPrimary(f, hops, m)
    ensures k == m
  {
    hide Greater, ScoreOf;
    assert !Greater(ScoreOf(f, hops[k]), ScoreOf(f, hops[m])) && !Greater(ScoreOf(f, hops[m]), ScoreOf(f, hops[k]));
  }

  lemma ByWeight(f: Forms, hops: seq<Hop>)
    ensures forall i, j :: 0 <= i < |hops| && 0 <= j < |hops| ==>
      (Greater(ScoreOf(f, hops[i]), ScoreOf(f, hops[j])) <==> Weight(ScoreOf(f, hops[i])) > Weight(ScoreOf(f, hops[j])))
  {
    hide Greater, Weight, ScoreOf;
    forall i, j | 0 <= i < |hops| && 0 <= j < |hops|
      ensures Greater(ScoreOf(f, hops[i]), ScoreOf(f, hops[j])) <==> Weight(ScoreOf(f, hops[i])) > Weight(ScoreOf(f, hops[j]))
    {
      OrderIsTotal(ScoreOf(f, hops[i]), ScoreOf(f, hops[j]));
    }
  }

  /** SelectPrimaryHop on normalized hops, which all have an id. */
  method SelectPrimary(f: Forms, hops: seq<Hop>) returns (best: int)
    ensures hops == [] ==> best == -1
    ensures hops != [] ==> IsPrimary(f, hops, best)
  {
    hide Greater, ScoreOf, Weight;
    if |hops| == 0 { return -1; }
    best := 0;
    ByWeight(f, hops);
    for i := 1 to |hops|
      invariant 0 <= best < i
      invariant forall j :: 0 <= j < i ==> !Greater(ScoreOf(f, hops[j]), ScoreOf(f, hops[best]))
      invariant forall j :: 0 <= j < best ==> Greater(ScoreOf(f, hops[best]), ScoreOf(f, hops[j]))
    {
      ByWeight(f, hops);
      var mine := HopScore(f, hops[i]);
      var other := HopScore(f, hops[best]);
      if Greater(mine, other) { best := i; }
    }
  }

  // ---- the order of the posts -----------------------------------------------------------------------

  /** Secondaries in first-seen order, and the primary last. */
  function PrimaryLast(ids: seq<string>, primary: string): seq<string> {
    Without(ids, primary) + [primary]
  }

  /** The order of the posts is a permutation of the ids: none is lost, none repeats, and
      the primary comes last. */
  lemma {:induction false} PostsArePermutation(ids: seq<string>, primary: string)
    requires NoDup(ids) && primary in ids
    ensures var order := PrimaryLast(ids, primary);
      && NoDup(order) && |order| == |ids| && (forall y :: y in order <==> y in ids)
      && order[|order| - 1] == primary
  {
    WithoutKeeps(ids, primary);
    var i :| 0 <= i < |ids| && ids[i] == primary;
    WithoutAt(ids, i);
  }

  /** The id of the primary among the hops of a turn; blank without hops. */
  ghost predicate IsPrimaryId(f: Forms, raws: seq<Value>, primary: string) {
    IsPrimaryOf(f, Normalized(f, raws), primary)
  }

  ghost predicate IsPrimaryOf(f: Forms, hops: seq<Hop>, primary: string) {
    if hops == [] then primary == "" else exists k :: IsPrimary(f, hops, k) && primary == hops[k].reqId
  }

  /** Whoever selects it, the primary is the same. */
  lemma PrimaryAgrees(f: Forms, hops: seq<Hop>, p: string, q: string)
    requires IsPrimaryOf(f, hops, p) && IsPrimaryOf(f, hops, q)
    ensures p == q
  {
    hide ScoreOf, Greater;
    if hops != [] {
      var k :| IsPrimary(f, hops, k) && p == hops[k].reqId;
      var m :| IsPrimary(f, hops, m) && q == hops[m].reqId;
      PrimaryUnique(f, hops, k, m);
    }
  }

  /** The posts of a turn: all ids, with the given one last. */
  function PostOrder(f: Forms, raws: seq<Value>, primary: string): seq<string> {
    var hops := Normalized(f, raws);
    if hops == [] then [] else PrimaryLast(Ids(hops), primary)
  }

  /** The primary and the outcome that BuildAggregateTracePayload names. */
  method Aggregate(f: Forms, raws: seq<Value>) returns (primary: string, anyErr: bool)
    ensures IsPrimaryId(f, raws, primary)
    ensures anyErr <==> exists i :: 0 <= i < |Normalized(f, raws)| && !StatusOk(f, Normalized(f, raws)[i].status)
  {
    hide Normalized, IsPrimary, StatusOk, IsFirst, H.FirstSeen, RawIds, ScoreOf;
    var norm := NormalizeHops(f, raws);
    if |norm| == 0 { return "", false; }
    var best := SelectPrimary(f, norm);
    PrimaryInRange(f, norm, best);
    primary, anyErr := norm[best].reqId, false;
    for n := 0 to |norm|
      invariant anyErr <==> exists i :: 0 <= i < n && !StatusOk(f, norm[i].status)
    {
      if !StatusOk(f, norm[n].status) { anyErr := true; }
    }
  }

  /** OrderedReqIDsForTracePosts */
  method OrderedReqIds(f: Forms, raws: seq<Value>) returns (order: seq<string>, ghost primary: string)
    ensures IsPrimaryId(f, raws, primary) && order == PostOrder(f, raws, primary)
    ensures forall id :: id in order <==> id in RawIds(Normals(f, raws))
    ensures NoDup(order) && (order != [] ==> order[|order| - 1] == primary)
  {
    hide H.FirstSeen, RawIds, IsPrimary, IsFirst, ScoreOf, Normalized;
    var norm := NormalizeHops(f, raws);
    if |norm| == 0 { return [], ""; }
    var best := SelectPrimary(f, norm);
    PrimaryInRange(f, norm, best);
    var rid := norm[best].reqId;
    primary := rid;
    order := [];
    for n := 0 to |norm|
      invariant order == Without(Ids(norm)[..n], rid)
    {
      assert Ids(norm)[..n + 1] == Ids(norm)[..n] + [norm[n].reqId];
      WithoutPush(Ids(norm)[..n], norm[n].reqId, rid);
      if norm[n].reqId != rid { order := order + [norm[n].reqId]; }
    }
    assert Ids(norm)[..|norm|] == Ids(norm);
    assert Ids(norm)[best] == rid;
    order := order + [rid];
    PostsArePermutation(Ids(norm), rid);
  }

  lemma PrimaryInRange(f: Forms, hops: seq<Hop>, k: int)
    requires IsPrimary(f, hops, k)
    ensures 0 <= k < |hops|
  {
  }

  lemma {:induction false} WithoutPush(ids: seq<string>, x: string, p: string)
    ensures Without(ids + [x], p) == if x == p then Without(ids, p) else Without(ids, p) + [x]
  {
    if ids == [] {
      assert [x][1..] == [];
    } else {
      assert (ids + [x])[1..] == ids[1..] + [x];
      WithoutPush(ids[1..], x, p);
    }
  }

  /** What a post comes to: the context is done, the call failed, or an HTTP outcome. */
  datatype Post = ContextDone | CallFailed | Accepted | Declined

  datatype Report = Report(ok: bool, primary: string, order: seq<string>, posts: nat, errors: seq<string>)

  /** ProjectSessionTrace: every id is tried once, in order, and accounted for exactly
      once; without a client there is a single error. */
  method ProjectSessionTrace(f: Forms, enabled: bool, wired: bool, raws: seq<Value>, post: (nat, string) -> Post)
    returns (r: Report)
    ensures !enabled ==> r == Report(true, "", [], 0, [])
    ensures enabled ==> IsPrimaryId(f, raws, r.primary) && r.order == PostOrder(f, raws, r.primary)
    ensures enabled && wired ==>
      && r.posts + |r.errors| == |r.order|
      && r.errors == Failed(r.order, post, |r.order|)
    ensures enabled && !wired && r.order != [] ==> r.posts == 0 && r.errors == ["session client not wired"]
    ensures r.ok <==> r.errors == []
  {
    hide IsPrimaryOf, PostOrder, H.FirstSeen, RawIds, NoDup, Normalized, StatusOk;
    if !enabled { return Report(true, "", [], 0, []); }
    var primary, _ := Aggregate(f, raws);
    var order;
    ghost var last;
    order, last := OrderedReqIds(f, raws);
    PrimaryAgrees(f, Normalized(f, raws), primary, last);
    if |order| == 0 { return Report(true, primary, [], 0, []); }
    if !wired { return Report(false, primary, order, 0, ["session client not wired"]); }
    var posts: nat, errors := 0, [];
    for n := 0 to |order|
      invariant posts + |errors| == n && errors == Failed(order, post, n)
    {
      match post(n, order[n]) {
        case Accepted => posts := posts + 1;
        case ContextDone => errors := errors + [order[n]];
        case CallFailed => errors := errors + [order[n]];
        case Declined => errors := errors + [order[n]];
      }
    }
    r := Report(|errors| == 0, primary, order, posts, errors);
  }

  /** The ids among the first n whose post was not accepted. */
  function Failed(order: seq<string>, post: (nat, string) -> Post, n: nat): seq<string>
    requires n <= |order|
  {
    if n == 0 then []
    else if post(n - 1, order[n - 1]).Accepted? then Failed(order, post, n - 1)
    else Failed(order, post, n - 1) + [order[n - 1]]
  }
}
