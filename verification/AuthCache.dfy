/** The session cache of basic authentication (adapters/zeushttp/auth.go), with time in
    exact seconds. */
module AuthCache {
  import opened Collections

  const MARGIN := 30.0

  datatype Key = Key(url: string, bucket: string, scope: string, user: string)

  datatype Entry = Entry(sid: string, pwd: string, idleTtl: real, hardDeadline: real, lastUsed: real)

  type Cache = map<Key, Entry>

  function IdleLimit(ttl: real): real {
    if ttl - MARGIN < 0.0 then 0.0 else ttl - MARGIN
  }

  /** Which entry serves a lookup. */
  predicate Serves(c: Cache, key: Key, pwd: string, now: real) {
    && key in c && c[key].pwd == pwd && now < c[key].hardDeadline
    && now - c[key].lastUsed < IdleLimit(c[key].idleTtl)
  }

  function Touched(c: Cache, key: Key, pwd: string, now: real): Cache {
    if Serves(c, key, pwd, now) then c[key := c[key].(lastUsed := now)] else c
  }

  /** What a mint request came to. */
  datatype Mint = MintFailed | Minted(sid: string, idleTtl: real, hardTtl: real)

  /** What a hop authenticates with: nothing (NoAuth is an error, Open is not), a bearer
      token, or a session. */
  datatype Auth = NoAuth | Open | Token(token: string) | Session(sid: string)

  datatype Mode = Off | Certificate | Bearer | Stored | Basic | Invalid

  /** What a mode other than basic comes to, by the secret that is stored for it. */
  function Fixed(mode: Mode, secret: Option<string>): Auth {
    match mode
    case Off => Open
    case Bearer => if secret.Some? then Token(secret.value) else NoAuth
    case Stored => if secret.Some? then Session(secret.value) else NoAuth
    case _ => NoAuth
  }

  predicate Complete(key: Key, pwd: string) {
    key.bucket != "" && key.scope != "" && key.user != "" && pwd != ""
  }

  predicate Mints(mint: Mint) { mint.Minted? && mint.sid != "" }

  class Resolver {
    var closed: bool
    var cache: Cache

    constructor ()
      ensures !closed && cache == map[]
    {
      closed, cache := false, map[];
    }

    method CacheHit(key: Key, pwd: string, now: real) returns (auth: Auth)
      modifies this`cache
      ensures cache == Touched(old(cache), key, pwd, now)
      ensures auth == if Serves(old(cache), key, pwd, now) then Session(old(cache)[key].sid) else NoAuth
    {
      if key !in cache || cache[key].pwd != pwd { return NoAuth; }
      var ent := cache[key];
      if !(now < ent.hardDeadline) { return NoAuth; }
      var limit := ent.idleTtl - MARGIN;
      if limit < 0.0 { limit := 0.0; }
      if now - ent.lastUsed >= limit { return NoAuth; }
      cache := cache[key := ent.(lastUsed := now)];
      return Session(ent.sid);
    }

    method StoreCache(key: Key, ent: Entry)
      modifies this`cache
      ensures cache == if closed then old(cache) else old(cache)[key := ent]
    {
      if closed { return; }
      cache := cache[key := ent];
    }

    /** resolveBasic once the credentials are known; `now` is read before the mint request
        goes out.  A forced resolve skips the cache; a closed resolver cannot mint. */
    method ResolveBasic(key: Key, pwd: string, force: bool, now: real, mint: Mint) returns (auth: Auth)
      modifies this`cache
      ensures !force && Serves(old(cache), key, pwd, now) ==>
        auth == Session(old(cache)[key].sid) && cache == Touched(old(cache), key, pwd, now)
      ensures force || !Serves(old(cache), key, pwd, now) ==>
        if closed || !Mints(mint) then auth == NoAuth && cache == old(cache)
        else auth == Session(mint.sid)
             && cache == old(cache)[key := Entry(mint.sid, pwd, mint.idleTtl, now + mint.hardTtl, now)]
    {
      if !force {
        auth := CacheHit(key, pwd, now);
        if auth != NoAuth { return; }
      }
      if closed { return NoAuth; }
      match mint {
        case MintFailed => return NoAuth;
        case Minted(sid, idleTtl, hardTtl) =>
          if sid == "" { return NoAuth; }
          StoreCache(key, Entry(sid, pwd, idleTtl, now + hardTtl, now));
          return Session(sid);
      }
    }

    /** ResolveAuth: a closed resolver refuses before anything else, and only the basic
        mode looks at the cache. */
    method ResolveAuth(mode: Mode, secret: Option<string>, key: Key, pwd: string, force: bool, now: real, mint: Mint)
      returns (auth: Auth)
      modifies this`cache
      ensures closed ==> auth == NoAuth && cache == old(cache)
      ensures mode != Basic ==> cache == old(cache) && auth == if closed then NoAuth else Fixed(mode, secret)
      ensures mode == Basic && !Complete(key, pwd) ==> auth == NoAuth && cache == old(cache)
      ensures !closed && mode == Basic && Complete(key, pwd) ==>
        if !force && Serves(old(cache), key, pwd, now) then
          auth == Session(old(cache)[key].sid) && cache == Touched(old(cache), key, pwd, now)
        else if !Mints(mint) then auth == NoAuth && cache == old(cache)
        else auth == Session(mint.sid)
             && cache == old(cache)[key := Entry(mint.sid, pwd, mint.idleTtl, now + mint.hardTtl, now)]
    {
      if closed { return NoAuth; }
      match mode {
        case Off => return Open;
        case Certificate => return NoAuth;
        case Bearer => if secret.Some? { return Token(secret.value); } return NoAuth;
        case Stored => if secret.Some? { return Session(secret.value); } return NoAuth;
        case Basic =>
          if key.bucket == "" || key.scope == "" || key.user == "" || pwd == "" { return NoAuth; }
          auth := ResolveBasic(key, pwd, force, now, mint);
        case Invalid => return NoAuth;
      }
    }
  }

  /** One hop: its HTTP status, or an error. */
  datatype HopReply = HopError | Status(code: int)

  datatype Attempt = Attempt(auth: Auth, reply: HopReply)

  /** DoWithBasic401Remint: one hop, and after a 401 in basic mode one more with a session
      minted by force; never a third. */
  method DoWithRemint(r: Resolver, mode: Mode, secret: Option<string>, key: Key, pwd: string, now: real, later: real,
                      mint: Mint, remint: Mint, hop: seq<Attempt> -> HopReply)
    returns (tries: seq<Attempt>, auth: Auth)
    modifies r`cache
    ensures forall i :: 0 <= i < |tries| ==> tries[i].reply == hop(tries[..i]) && tries[i].auth != NoAuth
    ensures tries == [] <==>
      || r.closed
      || (mode != Basic && Fixed(mode, secret) == NoAuth)
      || (mode == Basic && !(Complete(key, pwd) && (Serves(old(r.cache), key, pwd, now) || Mints(mint))))
    ensures tries != [] && mode != Basic ==> tries[0].auth == Fixed(mode, secret)
    ensures tries != [] && mode == Basic ==> tries[0].auth == Session(
      if Serves(old(r.cache), key, pwd, now) then old(r.cache)[key].sid else mint.sid)
    ensures |tries| <= 2
    ensures |tries| == 2 <==> tries != [] && tries[0].reply == Status(401) && mode == Basic && Mints(remint)
    ensures |tries| == 2 ==> tries[1].auth == Session(remint.sid)
    ensures auth == NoAuth <==> tries == [] || (tries[0].reply == Status(401) && mode == Basic && !Mints(remint))
    ensures auth != NoAuth ==> auth == tries[|tries| - 1].auth
    ensures mode != Basic || tries == [] ==> r.cache == old(r.cache)
  {
    tries := [];
    auth := r.ResolveAuth(mode, secret, key, pwd, false, now, mint);
    if auth == NoAuth { return; }
    var reply := hop([]);
    tries := [Attempt(auth, reply)];
    assert tries[..0] == [];
    if reply != Status(401) || mode != Basic { return; }
    auth := r.ResolveAuth(mode, secret, key, pwd, true, later, remint);
    if auth == NoAuth { return; }
    reply := hop(tries);
    assert (tries + [Attempt(auth, reply)])[..1] == tries;
    tries := tries + [Attempt(auth, reply)];
  }

  // ---- runs of the cache ------------------------------------------------------------------------

  /** One resolve that handed out a session. */
  datatype Use = Use(key: Key, pwd: string, now: real)

  /** The resolves that handed out one session, in lock order, the mint first. */
  datatype Lineage = Lineage(idleTtl: real, hardDeadline: real, uses: seq<Use>)

  datatype State = State(cache: Cache, sessions: map<string, Lineage>)

  /** Lookups and stores as the lock orders them; a clock is read before the lock. */
  datatype Step =
    | Lookup(key: Key, pwd: string, now: real)
    | Store(key: Key, pwd: string, sid: string, idleTtl: real, hardTtl: real, now: real)

  /** The server mints every session id once. */
  predicate Enabled(s: State, step: Step) {
    step.Store? ==> step.sid !in s.sessions
  }

  function Apply(s: State, step: Step): State {
    match step
    case Lookup(key, pwd, now) =>
      if Serves(s.cache, key, pwd, now) && s.cache[key].sid in s.sessions then
        var sid := s.cache[key].sid;
        var l := s.sessions[sid];
        State(Touched(s.cache, key, pwd, now), s.sessions[sid := l.(uses := l.uses + [Use(key, pwd, now)])])
      else s.(cache := Touched(s.cache, key, pwd, now))
    case Store(key, pwd, sid, idleTtl, hardTtl, now) =>
      State(s.cache[key := Entry(sid, pwd, idleTtl, now + hardTtl, now)],
            s.sessions[sid := Lineage(idleTtl, now + hardTtl, [Use(key, pwd, now)])])
  }

  ghost predicate Legal(steps: seq<Step>)
    decreases |steps|, 0
  {
    steps == [] || (Legal(steps[..|steps| - 1]) && Enabled(After(steps[..|steps| - 1]), steps[|steps| - 1]))
  }

  ghost function After(steps: seq<Step>): State
    requires Legal(steps)
    decreases |steps|, 1
  {
    if steps == [] then State(map[], map[]) else Apply(After(steps[..|steps| - 1]), steps[|steps| - 1])
  }

  /** Every hit has the key and password of the mint, is strictly before the hard deadline,
      and follows the resolve before it within the idle limit. */
  ghost predicate Sound(l: Lineage) {
    && |l.uses| > 0
    && forall k :: 0 < k < |l.uses| ==>
         && l.uses[k].key == l.uses[0].key && l.uses[k].pwd == l.uses[0].pwd
         && l.uses[k].now < l.hardDeadline
         && l.uses[k].now - l.uses[k - 1].now < IdleLimit(l.idleTtl)
  }

  ghost predicate Inv(s: State) {
    && (forall sid :: sid in s.sessions ==> Sound(s.sessions[sid]))
    && (forall key :: key in s.cache ==>
          var e := s.cache[key];
          && e.sid in s.sessions
          && var l := s.sessions[e.sid];
             && e.idleTtl == l.idleTtl && e.hardDeadline == l.hardDeadline && |l.uses| > 0
             && e.lastUsed == l.uses[|l.uses| - 1].now && e.pwd == l.uses[0].pwd && key == l.uses[0].key)
  }

  lemma StepKeeps(s: State, step: Step)
    requires Inv(s) && Enabled(s, step)
    ensures Inv(Apply(s, step))
  {
    hide IdleLimit;
    var t := Apply(s, step);
    match step {
      case Lookup(key, pwd, now) =>
        if Serves(s.cache, key, pwd, now) {
          var sid := s.cache[key].sid;
          var l := s.sessions[sid];
          SoundPush(l, Use(key, pwd, now));
          assert t.sessions[sid] == l.(uses := l.uses + [Use(key, pwd, now)]);
        }
      case Store(key, pwd, sid, idleTtl, hardTtl, now) =>
        assert Sound(Lineage(idleTtl, now + hardTtl, [Use(key, pwd, now)]));
    }
  }

  lemma SoundPush(l: Lineage, u: Use)
    requires Sound(l)
    requires u.key == l.uses[0].key && u.pwd == l.uses[0].pwd && u.now < l.hardDeadline
    requires u.now - l.uses[|l.uses| - 1].now < IdleLimit(l.idleTtl)
    ensures Sound(l.(uses := l.uses + [u]))
  {
    hide IdleLimit;
  }

  lemma {:induction false} Invariant(steps: seq<Step>)
    requires Legal(steps)
    ensures Inv(After(steps))
    decreases |steps|
  {
    hide Inv, Apply, Enabled;
    if steps == [] {
      EmptyInv();
    } else {
      Invariant(steps[..|steps| - 1]);
      StepKeeps(After(steps[..|steps| - 1]), steps[|steps| - 1]);
    }
  }

  lemma EmptyInv()
    ensures Inv(State(map[], map[]))
  {
  }

  /** Over every run: each hit repeats the key and the password of its mint, and comes
      strictly before the hard deadline. */
  lemma {:induction false} HitsMatchMint(steps: seq<Step>, sid: string, k: nat)
    requires Legal(steps) && sid in After(steps).sessions && 0 < k < |After(steps).sessions[sid].uses|
    ensures var l := After(steps).sessions[sid];
      l.uses[k].key == l.uses[0].key && l.uses[k].pwd == l.uses[0].pwd && l.uses[k].now < l.hardDeadline
  {
    Invariant(steps);
  }

  // ---- the idle theorem --------------------------------------------------------------------------

  /** When the server sees the uses of one session: the mint first of all, none before its
      resolve, and every hit within the margin after it.  Nothing orders the hits. */
  ghost predicate Arrive(l: Lineage, at: seq<real>) {
    && |at| == |l.uses|
    && (forall k :: 0 <= k < |at| ==> l.uses[k].now <= at[k] && at[0] <= at[k])
    && (forall k :: 0 < k < |at| ==> at[k] <= l.uses[k].now + MARGIN)
  }

  /** The clocks in lock order never go back. */
  ghost predicate Forward(l: Lineage) {
    forall k :: 0 < k < |l.uses| ==> l.uses[k - 1].now <= l.uses[k].now
  }

  /** The last use before k that the server has seen when k arrives, looking back from j. */
  lemma {:induction false} SeenBefore(at: seq<real>, k: nat, j: nat) returns (m: nat)
    requires j < k < |at| && at[0] <= at[k]
    requires at[j + 1] >= at[k]
    ensures m < k && at[m] <= at[k] <= at[m + 1]
    decreases j
  {
    if at[j] <= at[k] {
      m := j;
    } else {
      m := SeenBefore(at, k, j - 1);
    }
  }

  /** The idle theorem: over every run of the cache, every hit reaches the server less
      than the idle TTL after some earlier use of the session, in whatever order hits
      arrive; provided that the TTL is no shorter than the margin or the clocks never go
      back (below the margin there are then no hits at all). */
  lemma {:induction false} NeverIdle(steps: seq<Step>, sid: string, at: seq<real>, k: nat)
    requires Legal(steps) && sid in After(steps).sessions
    requires Arrive(After(steps).sessions[sid], at) && 0 < k < |at|
    requires var l := After(steps).sessions[sid]; l.idleTtl >= MARGIN || Forward(l)
    ensures exists m :: 0 <= m < k && at[m] <= at[k] && at[k] - at[m] < After(steps).sessions[sid].idleTtl
  {
    Invariant(steps);
    var l := After(steps).sessions[sid];
    assert Sound(l);
    var m := SeenBefore(at, k, k - 1);
    assert l.uses[m + 1].now - l.uses[m + 1 - 1].now < IdleLimit(l.idleTtl);
    assert at[k] - at[m] < l.idleTtl;
  }

  /** The margin is exact: with any longer delay a hit can come after the TTL. */
  lemma {:induction false} MarginIsExact(key: Key, pwd: string, ttl: real, delay: real) returns (now: real)
    requires ttl > MARGIN && delay > MARGIN
    ensures Serves(map[key := Entry("s", pwd, ttl, now + 1.0, 0.0)], key, pwd, now) && 0.0 <= now && now + delay >= ttl
  {
    var slack := if delay - MARGIN < ttl - MARGIN then delay - MARGIN else ttl - MARGIN;
    now := ttl - MARGIN - slack;
  }

  /** The hard deadline has no margin: a hit right before it may arrive after it. */
  lemma {:induction false} HardDeadlineHasNoMargin(key: Key, pwd: string, ttl: real, deadline: real, delay: real) returns (now: real)
    requires ttl > MARGIN && 0.0 < delay <= MARGIN
    ensures Serves(map[key := Entry("s", pwd, ttl, deadline, now)], key, pwd, now) && now + delay > deadline
  {
    now := deadline - delay / 2.0;
  }

  /** Remark: below the margin nothing is ever served with clocks that do not go back. */
  lemma {:induction false} ShortTtlNeverHits(c: Cache, key: Key, pwd: string, now: real)
    requires key in c && c[key].idleTtl <= MARGIN && c[key].lastUsed <= now
    ensures !Serves(c, key, pwd, now)
  {
  }
}
