/** The token bucket and its limiter (observability/rate_limit.go), over exact reals.

    Callers read the clock before they take the lock, so the stamps arrive in lock
    order but need not be monotone. */
module TokenBucket {

  function Min(a: real, b: real): real { if a <= b then a else b }

  /** The guarded fields of one bucket. */
  datatype Level = Level(tokens: real, updated: real)

  /** Tokens a second, and capacity. */
  datatype Config = Config(rate: real, burst: real) {
    ghost predicate Valid() { rate > 0.0 && burst > 0.0 }
  }

  datatype Call = Call(now: real, cost: real)

  /** What a clock step is worth: a step backwards counts as no time at all. */
  function Forward(from: real, to: real): real { if to < from then 0.0 else to - from }

  /** Tokens earned in a stretch of time. */
  function Earned(c: Config, time: real): real { time * c.rate }

  function Refill(c: Config, l: Level, now: real): real {
    Min(c.burst, l.tokens + Earned(c, Forward(l.updated, now)))
  }

  predicate Admits(c: Config, l: Level, call: Call) {
    call.cost <= 0.0 || Refill(c, l, call.now) >= call.cost
  }

  function Step(c: Config, l: Level, call: Call): Level {
    if call.cost <= 0.0 then l
    else Level(Refill(c, l, call.now) - (if Admits(c, l, call) then call.cost else 0.0), call.now)
  }

  class Bucket {
    const rate: real
    const burst: real
    var tokens: real
    var updated: real

    constructor (rate: real, burst: real, now: real)
      ensures this.rate == rate && this.burst == burst
      ensures tokens == burst && updated == now
    {
      this.rate, this.burst, tokens, updated := rate, burst, burst, now;
    }

    ghost function Value(): Level reads this { Level(tokens, updated) }

    method Allow(now: real, cost: real) returns (ok: bool)
      modifies this
      ensures ok == Admits(Config(rate, burst), old(Value()), Call(now, cost))
      ensures Value() == Step(Config(rate, burst), old(Value()), Call(now, cost))
    {
      if cost <= 0.0 { return true; }
      var elapsed := now - updated;
      if elapsed < 0.0 { elapsed := 0.0; }
      updated := now;
      tokens := Min(burst, tokens + elapsed * rate);
      if tokens >= cost {
        tokens := tokens - cost;
        return true;
      }
      return false;
    }
  }

  /** NewTokenBucket refuses a rate or a capacity that is not positive. */
  method NewTokenBucket(rate: real, burst: real, now: real) returns (b: Bucket?)
    ensures b == null <==> rate <= 0.0 || burst <= 0.0
    ensures b != null ==> fresh(b) && b.rate == rate && b.burst == burst && b.Value() == Level(burst, now)
  {
    if rate <= 0.0 || burst <= 0.0 { return null; }
    b := new Bucket(rate, burst, now);
  }

  // ---- the bucket over a whole run --------------------------------------------

  /** A bucket made full at `start`, and the calls on it in lock order. */
  datatype Trace = Trace(c: Config, start: real, calls: seq<Call>)

  /** The bucket after the first n calls. */
  function After(t: Trace, n: nat): Level
    requires n <= |t.calls|
  {
    if n == 0 then Level(t.c.burst, t.start) else Step(t.c, After(t, n - 1), t.calls[n - 1])
  }

  /** What call n admits. */
  function Admitted(t: Trace, n: nat): real
    requires n < |t.calls|
  {
    if t.calls[n].cost > 0.0 && Admits(t.c, After(t, n), t.calls[n]) then t.calls[n].cost else 0.0
  }

  /** What the calls j up to n admit together. */
  function Spent(t: Trace, j: nat, n: nat): real
    requires j <= n <= |t.calls|
  {
    if j == n then 0.0 else Spent(t, j, n - 1) + Admitted(t, n - 1)
  }

  /** The sum of the forward clock steps that the bucket saw up to and with call n. */
  function Clock(t: Trace, n: nat): real
    requires n < |t.calls|
  {
    var before := if n == 0 then 0.0 else Clock(t, n - 1);
    if t.calls[n].cost <= 0.0 then before else before + Forward(After(t, n).updated, t.calls[n].now)
  }

  /** The level that call n is decided on. */
  function Available(t: Trace, n: nat): real
    requires n < |t.calls|
  {
    var l := After(t, n);
    if t.calls[n].cost <= 0.0 then l.tokens else Refill(t.c, l, t.calls[n].now)
  }

  /** What a window that opens at call j leaves for call n: the capacity, plus the
      refill since then, less what the window admitted so far. */
  function Headroom(t: Trace, j: nat, n: nat): real
    requires j <= n < |t.calls|
  {
    t.c.burst + Earned(t.c, Clock(t, n) - Clock(t, j)) - Spent(t, j, n)
  }

  lemma EarnedFacts(c: Config, a: real, b: real)
    requires c.Valid()
    ensures Earned(c, a + b) == Earned(c, a) + Earned(c, b)
    ensures Earned(c, 0.0) == 0.0
    ensures a >= 0.0 ==> Earned(c, a) >= 0.0
  {
  }

  lemma {:induction false} HeadroomStep(t: Trace, j: nat, n: nat)
    requires t.c.Valid() && j <= n < |t.calls| - 1
    ensures Headroom(t, j, n + 1)
         == Headroom(t, j, n) - Admitted(t, n) + Earned(t.c, Clock(t, n + 1) - Clock(t, n))
  {
    hide Earned, Clock, Admitted;
    var a, b := Clock(t, n + 1) - Clock(t, n), Clock(t, n) - Clock(t, j);
    EarnedFacts(t.c, a, b);
    assert Clock(t, n + 1) - Clock(t, j) == a + b;
  }

  lemma {:induction false} HeadroomOfNow(t: Trace, n: nat)
    requires t.c.Valid() && n < |t.calls|
    ensures Headroom(t, n, n) == t.c.burst
  {
    hide Earned, Clock;
    EarnedFacts(t.c, 0.0, 0.0);
  }

  lemma {:induction false} WithinCapacity(t: Trace, n: nat)
    requires t.c.Valid() && n <= |t.calls|
    ensures 0.0 <= After(t, n).tokens <= t.c.burst
  {
    hide Earned;
    if n > 0 {
      WithinCapacity(t, n - 1);
      EarnedFacts(t.c, Forward(After(t, n - 1).updated, t.calls[n - 1].now), 0.0);
    }
  }

  /** The level after call n is what call n was decided on, less what it admitted; the
      next one starts from there. */
  lemma {:induction false} LevelStep(t: Trace, n: nat)
    requires t.c.Valid() && n < |t.calls|
    ensures After(t, n + 1).tokens == Available(t, n) - Admitted(t, n)
    ensures n + 1 < |t.calls| ==>
      Available(t, n + 1) == Min(t.c.burst, After(t, n + 1).tokens + Earned(t.c, Clock(t, n + 1) - Clock(t, n)))
  {
    hide Earned;
    WithinCapacity(t, n + 1);
    EarnedFacts(t.c, 0.0, 0.0);
    if n + 1 < |t.calls| {
      hide After;
      assert t.calls[n + 1].cost > 0.0 ==>
        Clock(t, n + 1) - Clock(t, n) == Forward(After(t, n + 1).updated, t.calls[n + 1].now);
    }
  }

  /** The bucket is exact: the level that a call is decided on is the least headroom of
      all windows that could have been opened so far. */
  lemma {:induction false} LevelIsLeastHeadroom(t: Trace, n: nat)
    requires t.c.Valid() && n < |t.calls|
    ensures forall j: nat :: j <= n ==> Available(t, n) <= Headroom(t, j, n)
    ensures exists j: nat :: j <= n && Available(t, n) == Headroom(t, j, n)
  {
    hide Earned, After, Admitted, Clock, Spent, Headroom;
    HeadroomOfNow(t, n);
    if n == 0 {
      FullAtFirst(t);
    } else {
      LevelIsLeastHeadroom(t, n - 1);
      LevelStep(t, n - 1);
      hide Available;
      forall j: nat | j < n
        ensures Headroom(t, j, n) == Headroom(t, j, n - 1) - Admitted(t, n - 1) + Earned(t.c, Clock(t, n) - Clock(t, n - 1))
      {
        HeadroomStep(t, j, n - 1);
      }
      var j: nat :| j <= n - 1 && Available(t, n - 1) == Headroom(t, j, n - 1);
      if Available(t, n) == t.c.burst {
        assert Available(t, n) == Headroom(t, n, n);
      } else {
        assert Available(t, n) == Headroom(t, j, n);
      }
    }
  }

  lemma FullAtFirst(t: Trace)
    requires t.c.Valid() && |t.calls| > 0
    ensures Available(t, 0) == t.c.burst
  {
    hide Earned;
    EarnedFacts(t.c, Forward(t.start, t.calls[0].now), 0.0);
  }

  /** A call with a positive cost passes exactly when every window that ends with it
      stays within the capacity plus the refill over the window's length. */
  lemma {:induction false} AdmitsExactly(t: Trace, n: nat)
    requires t.c.Valid() && n < |t.calls| && t.calls[n].cost > 0.0
    ensures Admits(t.c, After(t, n), t.calls[n]) <==>
      forall j: nat :: j <= n ==>
        Spent(t, j, n) + t.calls[n].cost <= t.c.burst + Earned(t.c, Clock(t, n) - Clock(t, j))
  {
    LevelIsLeastHeadroom(t, n);
    assert Admits(t.c, After(t, n), t.calls[n]) <==> Available(t, n) >= t.calls[n].cost;
    hide After, Admitted, Clock, Available, Spent, Admits, Earned;
    forall j: nat | j <= n
      ensures Available(t, n) <= t.c.burst + Earned(t.c, Clock(t, n) - Clock(t, j)) - Spent(t, j, n)
    {
      assert Available(t, n) <= Headroom(t, j, n);
    }
    var j: nat :| j <= n && Available(t, n) == Headroom(t, j, n);
    assert Available(t, n) == t.c.burst + Earned(t.c, Clock(t, n) - Clock(t, j)) - Spent(t, j, n);
  }

  /** Whatever the clock does, no window admits more than the capacity plus the refill
      over the forward clock steps inside it. */
  lemma {:induction false} WindowBound(t: Trace, j: nat, n: nat)
    requires t.c.Valid() && j <= n < |t.calls|
    ensures Spent(t, j, n + 1) <= t.c.burst + Earned(t.c, Clock(t, n) - Clock(t, j))
  {
    hide Earned, After, Admitted, Clock, Available;
    LevelIsLeastHeadroom(t, n);
    LevelStep(t, n);
    WithinCapacity(t, n + 1);
    assert Available(t, n) <= Headroom(t, j, n);
  }

  /** The backward clock steps, the counterpart of Clock. */
  function Backward(t: Trace, n: nat): (r: real)
    requires n < |t.calls|
  {
    var before := if n == 0 then 0.0 else Backward(t, n - 1);
    if t.calls[n].cost <= 0.0 then before else before + Forward(t.calls[n].now, After(t, n).updated)
  }

  lemma {:induction false} ClockBalance(t: Trace, n: nat)
    requires n < |t.calls|
    ensures Clock(t, n) - Backward(t, n) == After(t, n + 1).updated - t.start
    ensures t.calls[n].cost > 0.0 ==> After(t, n + 1).updated == t.calls[n].now
  {
    if n > 0 { ClockBalance(t, n - 1); }
  }

  lemma {:induction false} BackwardGrows(t: Trace, j: nat, n: nat)
    requires j <= n < |t.calls|
    ensures Backward(t, j) <= Backward(t, n)
  {
    if j < n { BackwardGrows(t, j, n - 1); }
  }

  /** From call j on to call n, the stamps of the calls that cost something never go back. */
  ghost predicate OrderedIn(t: Trace, j: nat, n: nat) {
    forall m: nat :: j < m <= n && m < |t.calls| && t.calls[m].cost > 0.0 ==> After(t, m).updated <= t.calls[m].now
  }

  lemma {:induction false} OrderedHasNoBackward(t: Trace, j: nat, n: nat)
    requires j <= n < |t.calls| && OrderedIn(t, j, n)
    ensures Backward(t, n) == Backward(t, j)
  {
    if j < n { OrderedHasNoBackward(t, j, n - 1); }
  }

  /** In wall-clock terms: a window's refill time is its length by the stamps, plus all
      the steps back inside it. */
  lemma {:induction false} WindowLength(t: Trace, j: nat, n: nat)
    requires j <= n < |t.calls| && t.calls[j].cost > 0.0 && t.calls[n].cost > 0.0
    ensures Clock(t, n) - Clock(t, j)
         == t.calls[n].now - t.calls[j].now + (Backward(t, n) - Backward(t, j))
    ensures Backward(t, n) >= Backward(t, j)
    ensures OrderedIn(t, j, n) ==> Clock(t, n) - Clock(t, j) == t.calls[n].now - t.calls[j].now
  {
    ClockBalance(t, j);
    ClockBalance(t, n);
    BackwardGrows(t, j, n);
    if OrderedIn(t, j, n) { OrderedHasNoBackward(t, j, n); }
  }

  /** A window whose stamps are ordered admits no more than the capacity plus the rate
      times its wall-clock length, whatever the stamps before it. */
  lemma {:induction false} OrderedWindowBound(t: Trace, j: nat, n: nat)
    requires t.c.Valid() && j <= n < |t.calls| && OrderedIn(t, j, n)
    requires t.calls[j].cost > 0.0 && t.calls[n].cost > 0.0
    ensures Spent(t, j, n + 1) <= t.c.burst + Earned(t.c, t.calls[n].now - t.calls[j].now)
  {
    hide Clock, Spent, OrderedIn;
    WindowBound(t, j, n);
    WindowLength(t, j, n);
  }

  // ---- the wall-clock bound, exactly ---------------------------------------------

  /** t makes a call that costs something at each of these stamps, in this order. (Calls
      that cost nothing leave the bucket alone.) */
  ghost predicate Over(t: Trace, c: Config, start: real, stamps: seq<real>) {
    && t.c == c && t.start == start && |t.calls| == |stamps|
    && forall i :: 0 <= i < |stamps| ==> t.calls[i].now == stamps[i] && t.calls[i].cost > 0.0
  }

  /** What the refill at stamp i can be worth: what its clock step earns, up to the capacity. */
  function Useful(c: Config, stamps: seq<real>, i: nat): real
    requires 0 < i < |stamps|
  {
    Min(c.burst, Earned(c, Forward(stamps[i - 1], stamps[i])))
  }

  /** The useful refills after stamp j, up to and with stamp n. */
  function Gain(c: Config, stamps: seq<real>, j: nat, n: nat): real
    requires j <= n < |stamps|
  {
    if j == n then 0.0 else Gain(c, stamps, j, n - 1) + Useful(c, stamps, n)
  }

  /** The wall-clock bound holds for every run over these stamps, whatever its calls
      cost, exactly when the useful refills inside the window are worth no more than its
      wall-clock length. */
  lemma {:induction false} WallClockBoundExact(c: Config, start: real, stamps: seq<real>, j: nat, n: nat)
    requires c.Valid() && j <= n < |stamps|
    ensures (forall t :: Over(t, c, start, stamps) ==> Spent(t, j, n + 1) <= c.burst + Earned(c, stamps[n] - stamps[j]))
       <==> Gain(c, stamps, j, n) <= Earned(c, stamps[n] - stamps[j])
  {
    hide Earned, Spent, Gain, After;
    var worst := Greedy(c, start, stamps, j);
    GreedyIsOver(c, start, stamps, j);
    GreedySpends(c, start, stamps, j, n);
    hide Over, Greedy;
    forall t | Over(t, c, start, stamps) ensures Spent(t, j, n + 1) <= c.burst + Gain(c, stamps, j, n) {
      GainBound(t, c, start, stamps, j, n);
    }
    assert Spent(worst, j, n + 1) == c.burst + Gain(c, stamps, j, n);
  }

  lemma {:induction false} GainBound(t: Trace, c: Config, start: real, stamps: seq<real>, j: nat, n: nat)
    requires c.Valid() && j <= n < |stamps| && Over(t, c, start, stamps)
    ensures Spent(t, j, n + 1) + After(t, n + 1).tokens <= c.burst + Gain(c, stamps, j, n)
    ensures Spent(t, j, n + 1) <= c.burst + Gain(c, stamps, j, n)
  {
    hide Earned;
    WithinCapacity(t, n);
    WithinCapacity(t, n + 1);
    if j == n {
      assert Spent(t, j, n + 1) == Spent(t, j, n) + Admitted(t, n) == Admitted(t, n);
    } else {
      GainBound(t, c, start, stamps, j, n - 1);
      assert After(t, n).updated == stamps[n - 1];
      EarnedFacts(c, Forward(stamps[n - 1], stamps[n]), 0.0);
    }
  }

  /** The most demanding run over these stamps: the window's first call takes the whole
      capacity and every later one what its clock step earned. Where there is nothing to
      take, before the window or inside it, the call asks for too much and is refused. */
  function Greedy(c: Config, start: real, stamps: seq<real>, j: nat): Trace {
    Trace(c, start, seq(|stamps|, i requires 0 <= i < |stamps| => Call(stamps[i], GreedyCost(c, stamps, j, i))))
  }

  function GreedyCost(c: Config, stamps: seq<real>, j: nat, i: nat): real
    requires i < |stamps|
  {
    if i == j then c.burst
    else if i > j && Useful(c, stamps, i) > 0.0 then Useful(c, stamps, i)
    else c.burst + 1.0
  }

  lemma GreedyIsOver(c: Config, start: real, stamps: seq<real>, j: nat)
    requires c.Valid()
    ensures Over(Greedy(c, start, stamps, j), c, start, stamps)
  {
  }

  lemma {:induction false} GreedyWaits(c: Config, start: real, stamps: seq<real>, j: nat, n: nat)
    requires c.Valid() && n <= j < |stamps|
    ensures After(Greedy(c, start, stamps, j), n).tokens == c.burst
  {
    hide Earned, Useful;
    if n > 0 {
      var t := Greedy(c, start, stamps, j);
      GreedyWaits(c, start, stamps, j, n - 1);
      EarnedFacts(c, Forward(After(t, n - 1).updated, stamps[n - 1]), 0.0);
    }
  }

  lemma {:induction false} GreedySpends(c: Config, start: real, stamps: seq<real>, j: nat, n: nat)
    requires c.Valid() && j <= n < |stamps|
    ensures var t := Greedy(c, start, stamps, j);
      Spent(t, j, n + 1) == c.burst + Gain(c, stamps, j, n) && After(t, n + 1) == Level(0.0, stamps[n])
  {
    hide Earned;
    var t := Greedy(c, start, stamps, j);
    if j == n {
      GreedyWaits(c, start, stamps, j, n);
      EarnedFacts(c, Forward(After(t, n).updated, stamps[n]), 0.0);
      assert Spent(t, j, n + 1) == Spent(t, j, n) + Admitted(t, n) == Admitted(t, n);
    } else {
      GreedySpends(c, start, stamps, j, n - 1);
      EarnedFacts(c, Forward(stamps[n - 1], stamps[n]), 0.0);
      assert Refill(c, After(t, n), stamps[n]) == Useful(c, stamps, n);
    }
  }

  /** Stamps in order inside the window meet the condition. */
  lemma {:induction false} SortedGain(c: Config, stamps: seq<real>, j: nat, n: nat)
    requires c.Valid() && j <= n < |stamps|
    requires forall i :: j < i <= n ==> stamps[i - 1] <= stamps[i]
    ensures Gain(c, stamps, j, n) <= Earned(c, stamps[n] - stamps[j])
  {
    hide Earned;
    if j == n {
      EarnedFacts(c, 0.0, 0.0);
    } else {
      SortedGain(c, stamps, j, n - 1);
      EarnedFacts(c, stamps[n - 1] - stamps[j], stamps[n] - stamps[n - 1]);
      assert stamps[n - 1] - stamps[j] + (stamps[n] - stamps[n - 1]) == stamps[n] - stamps[j];
    }
  }

  /** Without the order the wall-clock bound fails: a bucket of one token that earns one
      a second hands out two at the same wall-clock instant, because an early stamp in
      between rewinds the clock it measures from. */
  lemma {:induction false} OutOfOrderExceeds()
    ensures var t := Trace(Config(1.0, 1.0), 0.0, [Call(1.0, 1.0), Call(0.0, 1.0), Call(1.0, 1.0)]);
            t.c.Valid() && Spent(t, 0, 3) == 2.0 && t.c.burst + Earned(t.c, t.calls[2].now - t.calls[0].now) == 1.0
  {
    var t := Trace(Config(1.0, 1.0), 0.0, [Call(1.0, 1.0), Call(0.0, 1.0), Call(1.0, 1.0)]);
    var c := t.c;
    assert Earned(c, 0.0) == 0.0 && Earned(c, 1.0) == 1.0;
    hide Earned;
    assert After(t, 0) == Level(1.0, 0.0);
    assert After(t, 1) == Level(0.0, 1.0);
    assert After(t, 2) == Level(0.0, 0.0);
    hide After;
    assert Spent(t, 0, 1) == 1.0;
    assert Spent(t, 0, 2) == 1.0;
    assert Admitted(t, 2) == 1.0;
  }

  // ---- the limiter --------------------------------------------------------------

  datatype Op = Configure(surface: string, config: Config, now: real) | Allow(surface: string, call: Call)

  /** The buckets by surface. */
  type Table = map<string, (Config, Level)>

  function StepTable(t: Table, op: Op): Table {
    match op
    case Configure(s, c, now) =>
      if s == "" || c.rate <= 0.0 || c.burst <= 0.0 then t else t[s := (c, Level(c.burst, now))]
    case Allow(s, call) =>
      if s in t then t[s := (t[s].0, Step(t[s].0, t[s].1, call))] else t
  }

  predicate Answer(t: Table, surface: string, call: Call) {
    surface in t ==> Admits(t[surface].0, t[surface].1, call)
  }

  function RunTable(ops: seq<Op>): Table
    decreases |ops|
  {
    if ops == [] then map[] else StepTable(RunTable(ops[..|ops| - 1]), ops[|ops| - 1])
  }

  function Only(ops: seq<Op>, surface: string): seq<Op>
    decreases |ops|
  {
    if ops == [] then []
    else
      var rest := Only(ops[..|ops| - 1], surface);
      if ops[|ops| - 1].surface == surface then rest + [ops[|ops| - 1]] else rest
  }

  /** Surfaces do not disturb each other: a surface answers as if only its own
      operations had ever happened. */
  lemma {:induction false} SurfacesIndependent(ops: seq<Op>, surface: string, call: Call)
    ensures surface in RunTable(ops) <==> surface in RunTable(Only(ops, surface))
    ensures surface in RunTable(ops) ==> RunTable(ops)[surface] == RunTable(Only(ops, surface))[surface]
    ensures Answer(RunTable(ops), surface, call) == Answer(RunTable(Only(ops, surface)), surface, call)
    decreases |ops|
  {
    if ops != [] {
      var n := |ops| - 1;
      SurfacesIndependent(ops[..n], surface, call);
      var own := Only(ops[..n], surface);
      if ops[n].surface == surface {
        assert (own + [ops[n]])[..|own|] == own;
        assert RunTable(own + [ops[n]]) == StepTable(RunTable(own), ops[n]);
      }
    }
  }

  class Limiter {
    var buckets: map<string, Bucket>

    ghost predicate Valid()
      reads this, buckets.Values
    {
      && (forall s, t :: s in buckets && t in buckets && s != t ==> buckets[s] != buckets[t])
    }

    /** What every surface has, as a value. */
    ghost function Value(): Table
      reads this, buckets.Values
    {
      map s | s in buckets :: (Config(buckets[s].rate, buckets[s].burst), buckets[s].Value())
    }

    constructor ()
      ensures Valid() && buckets == map[]
    {
      buckets := map[];
    }

    /** Configure installs a full bucket in place of the old one. */
    method Configure(surface: string, rate: real, burst: real, now: real)
      requires Valid()
      modifies this
      ensures Valid()
      ensures surface == "" || rate <= 0.0 || burst <= 0.0 ==> buckets == old(buckets)
      ensures surface != "" && rate > 0.0 && burst > 0.0 ==>
        surface in buckets && fresh(buckets[surface]) && buckets == old(buckets)[surface := buckets[surface]]
        && buckets[surface].rate == rate && buckets[surface].burst == burst
        && buckets[surface].Value() == Level(burst, now)
      ensures Value() == StepTable(old(Value()), Op.Configure(surface, Config(rate, burst), now))
    {
      if surface == "" { return; }
      var b := NewTokenBucket(rate, burst, now);
      if b == null { return; }
      buckets := buckets[surface := b];
    }

    /** Allow passes a surface without a bucket; otherwise only that bucket changes. */
    method Allow(surface: string, now: real, cost: real) returns (ok: bool)
      requires Valid()
      modifies if surface in buckets then {buckets[surface]} else {}
      ensures Valid() && buckets == old(buckets)
      ensures surface !in buckets ==> ok
      ensures surface in buckets ==>
        var c := Config(buckets[surface].rate, buckets[surface].burst);
        ok == Admits(c, old(buckets[surface].Value()), Call(now, cost))
        && buckets[surface].Value() == Step(c, old(buckets[surface].Value()), Call(now, cost))
      ensures forall s :: s in buckets && s != surface ==> buckets[s].Value() == old(buckets[s].Value())
      ensures ok == Answer(old(Value()), surface, Call(now, cost))
      ensures Value() == StepTable(old(Value()), Op.Allow(surface, Call(now, cost)))
    {
      if surface !in buckets { return true; }
      var b := buckets[surface];
      ok := b.Allow(now, cost);
    }
  }
}
