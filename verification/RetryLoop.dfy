/** Failure classes, retry budget, backoff, and the request loop of the language-model
    client (domain/llm_classify.go, adapters/llmopenai/client.go). */
module RetryLoop {
  import opened Json

  datatype Class =
    | RateLimit | QuotaExhausted | Auth | ContextLength | ContentFilter | ProviderOverload
    | ProviderUnavailable | Timeout | InvalidRequest | ToolSchema | Unknown

  /** Which pattern catalogues the failure text matches. */
  datatype Facts = Facts(
    billing: bool, quota: bool, insufficientQuota: bool, overload: bool, capacity: bool, context: bool, filter: bool,
    toolCode: bool, toolText: bool, rate: bool)

  predicate Retryable(c: Class) {
    c in {RateLimit, ProviderOverload, ProviderUnavailable, Timeout}
  }

  /** ClassifyLlmFailure for a received status. */
  function ClassifyHttp(st: int, f: Facts): Class {
    if st == 402 then QuotaExhausted
    else if st == 401 || st == 403 then (if f.billing || f.quota then QuotaExhausted else Auth)
    else if st == 429 then (if f.insufficientQuota || f.quota then QuotaExhausted else RateLimit)
    else if st == 529 then ProviderOverload
    else if st in {500, 502, 503, 504} then
      if (st == 503 && f.overload) || (f.overload && f.capacity) then ProviderOverload else ProviderUnavailable
    else if st == 400 || st == 422 then
      if f.context then ContextLength else if f.filter then ContentFilter
      else if f.toolCode || f.toolText then ToolSchema else InvalidRequest
    else if f.rate && st >= 400 then RateLimit
    else Unknown
  }

  /** Exactly these HTTP failures may be tried again; an exhausted quota never. */
  lemma RetryableHttp(st: int, f: Facts)
    ensures Retryable(ClassifyHttp(st, f)) <==>
      || (st == 429 && !f.quota && !f.insufficientQuota)
      || st in {500, 502, 503, 504, 529}
      || (f.rate && st >= 400 && st !in {400, 401, 402, 403, 422, 429})
    ensures st == 429 && f.quota ==> ClassifyHttp(st, f) == QuotaExhausted
  {
  }

  /** The failures of each class. */
  lemma {:induction false} ClassesExactly(st: int, f: Facts)
    ensures var c := ClassifyHttp(st, f);
      && (c == QuotaExhausted <==>
            st == 402 || (st in {401, 403} && (f.billing || f.quota)) || (st == 429 && (f.insufficientQuota || f.quota)))
      && (c == Auth <==> st in {401, 403} && !f.billing && !f.quota)
      && (c == RateLimit <==>
            || (st == 429 && !f.insufficientQuota && !f.quota)
            || (f.rate && st >= 400 && st !in {400, 401, 402, 403, 422, 429, 500, 502, 503, 504, 529}))
      && (c == ProviderOverload <==>
            st == 529 || (st in {500, 502, 503, 504} && f.overload && (st == 503 || f.capacity)))
      && (c == ProviderUnavailable <==> st in {500, 502, 503, 504} && (!f.overload || (st != 503 && !f.capacity)))
      && (c == ContextLength <==> st in {400, 422} && f.context)
      && (c == ContentFilter <==> st in {400, 422} && !f.context && f.filter)
      && (c == ToolSchema <==> st in {400, 422} && !f.context && !f.filter && (f.toolCode || f.toolText))
      && (c == InvalidRequest <==> st in {400, 422} && !f.context && !f.filter && !f.toolCode && !f.toolText)
      && c != Timeout
  {
  }

  // ---- budget and backoff -------------------------------------------------------------------------

  datatype Budget = Budget(maxAttempts: int, maxExtraMs: int, attemptsUsed: int, msUsed: int)

  const DEFAULT_EXTRA_MS := 30000

  /** budgetForCall: a client budget starts afresh on every call. */
  function ForCall(budget: seq<Budget>, maxAttempts: int): Budget {
    if budget != [] then
      Budget(budget[0].maxAttempts, if budget[0].maxExtraMs == 0 then DEFAULT_EXTRA_MS else budget[0].maxExtraMs, 0, 0)
    else Budget(if maxAttempts < 0 then 0 else maxAttempts, DEFAULT_EXTRA_MS, 0, 0)
  }

  /** Every call begins with nothing used; half a minute is the default for the waits. */
  lemma {:induction false} CallStartsAfresh(budget: seq<Budget>, maxAttempts: int)
    ensures var b := ForCall(budget, maxAttempts);
      && b.attemptsUsed == 0 && b.msUsed == 0
      && (budget == [] ==> b.maxExtraMs == 30000 && b.maxAttempts == if maxAttempts > 0 then maxAttempts else 0)
      && (budget != [] ==> b.maxAttempts == budget[0].maxAttempts)
      && (budget != [] && budget[0].maxExtraMs != 0 ==> b.maxExtraMs == budget[0].maxExtraMs)
      && (budget != [] && budget[0].maxExtraMs == 0 ==> b.maxExtraMs == 30000)
  {
  }

  predicate Allows(b: Budget, retryable: bool, delay: int) {
    && retryable && b.attemptsUsed < b.maxAttempts
    && (b.maxExtraMs > 0 ==> b.msUsed + (if delay < 0 then 0 else delay) <= b.maxExtraMs)
  }

  class RetryBudget {
    const maxAttempts: int
    const maxExtraMs: int
    var attemptsUsed: int
    var msUsed: int

    ghost function Value(): Budget reads this { Budget(maxAttempts, maxExtraMs, attemptsUsed, msUsed) }

    constructor (b: Budget)
      ensures Value() == b
    {
      maxAttempts, maxExtraMs, attemptsUsed, msUsed := b.maxAttempts, b.maxExtraMs, b.attemptsUsed, b.msUsed;
    }

    method Allow(retryable: bool, delay: int) returns (ok: bool)
      ensures ok == Allows(Value(), retryable, delay)
    {
      if !retryable || attemptsUsed >= maxAttempts { return false; }
      var d := if delay < 0 then 0 else delay;
      return !(maxExtraMs > 0 && msUsed + d > maxExtraMs);
    }

    method Consume(delay: int)
      modifies this
      ensures Value() == old(Value()).(attemptsUsed := old(attemptsUsed) + 1,
                                       msUsed := old(msUsed) + (if delay > 0 then delay else 0))
    {
      attemptsUsed := attemptsUsed + 1;
      if delay > 0 { msUsed := msUsed + delay; }
    }
  }

  datatype Policy = Policy(maxAttempts: int, baseDelayMs: int, maxDelayMs: int, jitter: bool)

  /** The seconds of a Retry-After header; negative when there is none to obey. */
  type RetryAfter = real

  function PowerOfTwo(n: nat): (r: nat)
    ensures r >= 1
  {
    if n == 0 then 1 else 2 * PowerOfTwo(n - 1)
  }

  function Shift(attempt: int): nat { if attempt < 0 then 0 else if attempt > 16 then 16 else attempt }

  function Planned(p: Policy, attempt: int, retryAfter: RetryAfter): int {
    var base := if retryAfter >= 0.0 then Trunc(retryAfter * 1000.0) else p.baseDelayMs * PowerOfTwo(Shift(attempt));
    if p.maxDelayMs > 0 && base > p.maxDelayMs then p.maxDelayMs else base
  }

  /** The delay that comes of a planned one: none of a negative one, and with jitter some
      part between its half and the whole. */
  function Delayed(p: Policy, planned: int, random: real): int {
    if planned <= 0 then 0 else if p.jitter then Part(planned, 0.5 + random * 0.5) else planned
  }

  function Part(n: int, factor: real): int { Trunc(n as real * factor) }

  /** What the jitter may make of a planned delay. */
  ghost predicate Jittered(planned: int, delay: int) {
    0 <= delay <= planned && planned <= 2 * delay + 1
  }

  ghost predicate IsBackoff(p: Policy, attempt: int, retryAfter: RetryAfter, delay: int) {
    var planned := Planned(p, attempt, retryAfter);
    if planned <= 0 then delay == 0 else if p.jitter then Jittered(planned, delay) else delay == planned
  }

  /** backoffMS; `random` is a number in [0, 1). */
  method BackoffMs(p: Policy, attempt: int, retryAfter: RetryAfter, random: real) returns (delay: int)
    requires 0.0 <= random < 1.0
    ensures delay == Delayed(p, Planned(p, attempt, retryAfter), random)
    ensures IsBackoff(p, attempt, retryAfter, delay)
    ensures delay >= 0 && (p.maxDelayMs > 0 ==> delay <= p.maxDelayMs)
  {
    hide Part, PowerOfTwo;
    var base: int;
    if retryAfter >= 0.0 {
      base := Trunc(retryAfter * 1000.0);
    } else {
      var shift := attempt;
      if shift < 0 { shift := 0; }
      if shift > 16 { shift := 16; }
      base := p.baseDelayMs * PowerOfTwo(shift);
    }
    if p.maxDelayMs > 0 && base > p.maxDelayMs { base := p.maxDelayMs; }
    if p.jitter && base > 0 {
      var factor := 0.5 + random * 0.5;
      HalfToWhole(base, factor);
      base := Part(base, factor);
    }
    return if base < 0 then 0 else base;
  }

  lemma HalfToWhole(base: int, factor: real)
    requires base > 0 && 0.5 <= factor < 1.0
    ensures Jittered(base, Part(base, factor))
  {
    var x := base as real * factor;
    assert 0.5 * base as real <= x < base as real;
    assert x.Floor as real <= x < x.Floor as real + 1.0;
  }

  lemma {:induction false} PowersGrow(m: nat, n: nat)
    requires m <= n
    ensures PowerOfTwo(m) <= PowerOfTwo(n)
  {
    if m < n { PowersGrow(m, n - 1); }
  }

  /** Without a header the planned delays never shrink from one attempt to the next, and
      stay put from the sixteenth on. */
  lemma {:induction false} PlannedGrows(p: Policy, a: int, b: int)
    requires a <= b && p.baseDelayMs >= 0
    ensures Planned(p, a, -1.0) <= Planned(p, b, -1.0)
    ensures a >= 16 ==> Planned(p, a, -1.0) == Planned(p, b, -1.0)
  {
    PowersGrow(Shift(a), Shift(b));
    var x, y := PowerOfTwo(Shift(a)), PowerOfTwo(Shift(b));
    assert p.baseDelayMs * x <= p.baseDelayMs * y;
  }

  /** Without a header the planned delay begins at the base delay and doubles from one
      attempt to the next, up to the cap; with one it is the header's. */
  lemma {:induction false} PlannedDoubles(p: Policy, a: int, seconds: real)
    requires p.baseDelayMs >= 0
    ensures var uncapped := p.(maxDelayMs := 0);
      && Planned(uncapped, 0, -1.0) == p.baseDelayMs
      && (a <= 0 ==> Planned(uncapped, a, -1.0) == p.baseDelayMs)
      && (0 <= a < 16 ==> Planned(uncapped, a + 1, -1.0) == 2 * Planned(uncapped, a, -1.0))
      && (seconds >= 0.0 ==> Planned(uncapped, a, seconds) == (seconds * 1000.0).Floor)
    ensures var free := Planned(p.(maxDelayMs := 0), a, seconds);
      Planned(p, a, seconds) == if 0 < p.maxDelayMs < free then p.maxDelayMs else free
  {
    if 0 <= a < 16 {
      var x := PowerOfTwo(Shift(a));
      assert PowerOfTwo(Shift(a + 1)) == 2 * x;
      assert p.baseDelayMs * (2 * x) == 2 * (p.baseDelayMs * x);
    }
  }

  // ---- the request loop -----------------------------------------------------------------------------

  datatype Response =
    | Transport(timeout: bool, cancelled: bool)
    | Http(status: int, isObject: bool, facts: Facts, retryAfter: RetryAfter)

  /** One request, what came back, and the wait after it. */
  datatype Try = Try(response: Response, delay: int)

  datatype World = World(
    stopped: seq<Try> -> bool, respond: seq<Try> -> Response, random: seq<Try> -> real, interrupted: seq<Try> -> bool)
  {
    ghost predicate Valid() { forall t :: 0.0 <= random(t) < 1.0 }
  }

  datatype Result = Parsed | Stopped | Raised(cls: Class)

  function ClassOf(r: Response): Class {
    match r
    case Transport(timeout, _) => if timeout then Timeout else ProviderUnavailable
    case Http(st, _, facts, _) => ClassifyHttp(if st < 400 then 500 else st, facts)
  }

  /** A failure that the loop may try again: not a cancelled request, not a malformed
      success. */
  predicate MayRetry(r: Response) {
    Retryable(ClassOf(r)) && match r
                             case Transport(_, cancelled) => !cancelled
                             case Http(st, _, _, _) => st >= 400
  }

  /** Remark: a success that is no JSON object counts as a server error of a retryable class, and is
      not tried again. */
  lemma {:induction false} MalformedSuccess(r: Response)
    requires r.Http? && r.status < 400
    ensures Retryable(ClassOf(r)) && !MayRetry(r)
  {
  }

  /** Which responses may be tried again: a transport failure unless it was cancelled, and a
      received failure by its own status. */
  lemma {:induction false} WhatMayRetry(timeout: bool, cancelled: bool, st: int, isObject: bool, f: Facts, after: RetryAfter)
    ensures ClassOf(Transport(timeout, cancelled)) == if timeout then Timeout else ProviderUnavailable
    ensures MayRetry(Transport(timeout, cancelled)) <==> !cancelled
    ensures st >= 400 ==> ClassOf(Http(st, isObject, f, after)) == ClassifyHttp(st, f)
    ensures MayRetry(Http(st, isObject, f, after)) <==> st >= 400 && Retryable(ClassifyHttp(st, f))
  {
  }

  function HeaderOf(r: Response): RetryAfter { if r.Http? then r.retryAfter else -1.0 }

  function Waited(tries: seq<Try>): int
    decreases |tries|
  {
    if tries == [] then 0 else Waited(tries[..|tries| - 1]) + tries[|tries| - 1].delay
  }

  /** A run of tries that were all followed by a wait and another request. */
  ghost predicate Retried(p: Policy, tries: seq<Try>) {
    forall i :: 0 <= i < |tries| ==>
      && MayRetry(tries[i].response) && IsBackoff(p, i, HeaderOf(tries[i].response), tries[i].delay)
      && 0 <= tries[i].delay && (p.maxDelayMs > 0 ==> tries[i].delay <= p.maxDelayMs)
  }

  /** The budget after some tries. */
  function Used(b: Budget, tries: seq<Try>): Budget {
    b.(attemptsUsed := b.attemptsUsed + |tries|, msUsed := b.msUsed + Waited(tries))
  }

  lemma {:induction false} WaitedPush(tries: seq<Try>, t: Try)
    ensures Waited(tries + [t]) == Waited(tries) + t.delay
  {
    assert (tries + [t])[..|tries|] == tries;
  }

  lemma AllowsMeans(b: Budget, retryable: bool, delay: int)
    requires Allows(b, retryable, delay)
    ensures retryable && b.attemptsUsed < b.maxAttempts
    ensures b.maxExtraMs > 0 && delay >= 0 ==> b.msUsed + delay <= b.maxExtraMs
  {
  }

  lemma MayRetryMeans(r: Response)
    ensures MayRetry(r) ==> Retryable(ClassOf(r)) && (r.Http? ==> r.status >= 400) && (r.Transport? ==> !r.cancelled)
    ensures Retryable(ClassOf(r)) && (r.Transport? ==> !r.cancelled) && (r.Http? ==> r.status >= 400) ==> MayRetry(r)
  {
  }

  lemma NothingRetried(p: Policy)
    ensures Retried(p, [])
  {
  }

  lemma RetriedPush(p: Policy, tries: seq<Try>, t: Try)
    requires Retried(p, tries) && MayRetry(t.response) && IsBackoff(p, |tries|, HeaderOf(t.response), t.delay)
    requires 0 <= t.delay && (p.maxDelayMs > 0 ==> t.delay <= p.maxDelayMs)
    ensures Retried(p, tries + [t])
  {
    hide IsBackoff, MayRetry;
  }

  lemma NothingWaited()
    ensures Waited([]) == 0
  {
  }

  /** Why try i was followed by another one: nobody stopped the call before it or during the
      wait before, and the budget allowed the wait that was planned. */
  ghost predicate Went(w: World, p: Policy, b: Budget, tries: seq<Try>, i: nat)
    requires i < |tries|
  {
    var t := tries[i];
    && !w.stopped(tries[..i]) && (i > 0 ==> !w.interrupted(tries[..i]))
    && t.delay == Delayed(p, Planned(p, i, HeaderOf(t.response)), w.random(tries[..i]))
    && Allows(Used(b, tries[..i]), Retryable(ClassOf(t.response)), t.delay)
  }

  lemma NowWent(w: World, p: Policy, b: Budget, tries: seq<Try>)
    requires tries != [] && (|tries| > 1 ==> !w.interrupted(tries[..|tries| - 1]))
    requires var n := |tries| - 1;
      && !w.stopped(tries[..n]) && Allows(Used(b, tries[..n]), Retryable(ClassOf(tries[n].response)), tries[n].delay)
      && tries[n].delay == Delayed(p, Planned(p, n, HeaderOf(tries[n].response)), w.random(tries[..n]))
    ensures Went(w, p, b, tries, |tries| - 1)
  {
  }

  lemma WentStill(w: World, p: Policy, b: Budget, tries: seq<Try>, t: Try, i: nat)
    requires i < |tries| && Went(w, p, b, tries, i)
    ensures Went(w, p, b, tries + [t], i)
  {
    assert (tries + [t])[..i] == tries[..i];
  }

  /** How the call ends on what came back after these tries. */
  ghost predicate EndsOn(w: World, p: Policy, b: Budget, tries: seq<Try>, last: seq<Response>, r: Result) {
    var resp := w.respond(tries);
    if w.stopped(tries) || (resp.Transport? && resp.cancelled) then last == [] && r == Stopped
    else
      && last == [resp]
      && if resp.Http? && resp.status < 400 then r == (if resp.isObject then Parsed else Raised(ClassOf(resp)))
         else
           && r == Raised(ClassOf(resp))
           && (MayRetry(resp) ==>
                 exists d :: IsBackoff(p, |tries|, HeaderOf(resp), d) && !Allows(b, true, d))
  }

  /** One request: it ends the call, or it is followed by a wait. */
  method Request(w: World, p: Policy, b: RetryBudget, tries: seq<Try>) returns (last: seq<Response>, r: Result, again: seq<Try>)
    requires w.Valid()
    modifies b
    ensures |again| <= 1
    ensures again == [] ==> b.Value() == old(b.Value()) && EndsOn(w, p, b.Value(), tries, last, r)
    ensures again != [] ==>
      && last == [] && again[0].response == w.respond(tries) && MayRetry(again[0].response) && !w.stopped(tries)
      && IsBackoff(p, |tries|, HeaderOf(again[0].response), again[0].delay)
      && again[0].delay == Delayed(p, Planned(p, |tries|, HeaderOf(again[0].response)), w.random(tries))
      && 0 <= again[0].delay && (p.maxDelayMs > 0 ==> again[0].delay <= p.maxDelayMs)
      && Allows(old(b.Value()), true, again[0].delay)
      && b.Value() == old(b.Value()).(attemptsUsed := old(b.Value()).attemptsUsed + 1, msUsed := old(b.Value()).msUsed + again[0].delay)
  {
    hide IsBackoff, ClassifyHttp, Retryable, Planned, Delayed, HeaderOf, Allows;
    again := [];
    if w.stopped(tries) { return [], Stopped, []; }
    var resp := w.respond(tries);
    if resp.Transport? && resp.cancelled { return [], Stopped, []; }
    if resp.Http? && resp.status < 400 {
      return [resp], if resp.isObject then Parsed else Raised(ClassifyHttp(500, resp.facts)), [];
    }
    var cls := ClassOf(resp);
    var delay := BackoffMs(p, |tries|, HeaderOf(resp), w.random(tries));
    var ok := b.Allow(Retryable(cls), delay);
    MayRetryMeans(resp);
    if !ok { return [resp], Raised(cls), []; }
    AllowsMeans(b.Value(), Retryable(cls), delay);
    b.Consume(delay);
    return [], Stopped, [Try(resp, delay)];
  }

  /** The loop of Complete.  `last` is the response it ended on, when it ended on one. */
  method Complete(w: World, p: Policy, budget: seq<Budget>) returns (tries: seq<Try>, last: seq<Response>, r: Result)
    requires w.Valid()
    ensures |last| <= 1 && Retried(p, tries)
    ensures |tries| <= (var m := ForCall(budget, p.maxAttempts).maxAttempts; if m < 0 then 0 else m)
    ensures var b := ForCall(budget, p.maxAttempts); b.maxExtraMs > 0 ==> Waited(tries) <= b.maxExtraMs
    ensures forall i :: 0 <= i < |tries| ==> tries[i].response == w.respond(tries[..i])
    ensures last != [] ==> last[0] == w.respond(tries)
    ensures r.Parsed? <==> last != [] && last[0].Http? && last[0].status < 400 && last[0].isObject
    ensures r.Raised? ==> last != [] && r.cls == ClassOf(last[0])
    ensures r.Raised? && MayRetry(last[0]) ==>
      exists d :: IsBackoff(p, |tries|, HeaderOf(last[0]), d)
                  && !Allows(Used(ForCall(budget, p.maxAttempts), tries), true, d)
    ensures forall i :: 0 <= i < |tries| ==> Went(w, p, ForCall(budget, p.maxAttempts), tries, i)
    ensures r.Stopped? <==>
      w.stopped(tries) || (tries != [] && w.interrupted(tries)) || (w.respond(tries).Transport? && w.respond(tries).cancelled)
    ensures !r.Stopped? ==> last == [w.respond(tries)]
  {
    hide IsBackoff, ClassifyHttp, Waited, Retryable, Went, Planned, Delayed, Retried, HeaderOf, Allows, ClassOf, MayRetry;
    NothingWaited();
    NothingRetried(p);
    var b := new RetryBudget(ForCall(budget, p.maxAttempts));
    ghost var b0 := b.Value();
    tries, last := [], [];
    while true
      invariant fresh(b) && b.maxAttempts == b0.maxAttempts && b.maxExtraMs == b0.maxExtraMs
      invariant last == [] && Retried(p, tries) && b.Value() == Used(b0, tries)
      invariant |tries| <= if b0.maxAttempts < 0 then 0 else b0.maxAttempts
      invariant b0.maxExtraMs > 0 ==> Waited(tries) <= b0.maxExtraMs
      invariant forall i :: 0 <= i < |tries| ==> tries[i].response == w.respond(tries[..i])
      invariant forall i :: 0 <= i < |tries| ==> Went(w, p, b0, tries, i)
      invariant tries != [] ==> !w.interrupted(tries)
      decreases b.maxAttempts - |tries|
    {
      var again;
      last, r, again := Request(w, p, b, tries);
      MayRetryMeans(w.respond(tries));
      if again == [] { return; }
      var t := again[0];
      AllowsMeans(Used(b0, tries), true, t.delay);
      ghost var before := tries;
      RetriedPush(p, tries, t);
      WaitedPush(tries, t);
      tries := tries + [t];
      forall i | 0 <= i < |before| ensures Went(w, p, b0, tries, i) { WentStill(w, p, b0, before, t, i); }
      assert forall i :: 0 <= i < |before| ==> tries[..i] == before[..i];
      assert tries[..|before|] == before;
      MayRetryMeans(t.response);
      assert Went(w, p, b0, tries, |before|) by { NowWent(w, p, b0, tries); }
      if w.interrupted(tries) { return tries, [], Stopped; }
    }
  }
}
