/** The session lifecycle against a server on a lossy network
    (application/session_lifecycle.go, adapters/zeushttp/session.go). */
module SessionRounds {
  import opened Collections
  import opened Text
  import opened Json
  import opened Decimal

  // ---- the server and the network -----------------------------------------------------------

  /** A session counts the turns it accepts, from the round of its creation on, and keeps
      the round labels that clients put on them. */
  datatype Session = Session(start: int, round: int, alive: bool, accepted: seq<int>)

  type Server = map<string, Session>

  /** What becomes of a request: it never arrives, it arrives and the reply is lost, the
      server turns it down, or it goes through. */
  datatype Net = Lost | ReplyLost | Refused | Through

  datatype Reply = Silence | Rejected | Body(body: Doc)

  function Seen(net: Net, body: Doc): Reply {
    match net
    case Through => Body(body)
    case Refused => Rejected
    case _ => Silence
  }

  predicate Arrives(net: Net) { net == ReplyLost || net == Through }

  /** POST /v2/session: the server mints the id and picks the first round. */
  function ServeCreate(srv: Server, sid: string, start: int, net: Net): (Server, Reply) {
    (if Arrives(net) then srv[sid := Session(start, start, true, [])] else srv,
     Seen(net, map["session_id" := Str(sid), "round" := Num(start as real)]))
  }

  /** GET /v2/session/{id}; a dead or unknown session is turned down. */
  function ServeRehydrate(srv: Server, sid: string, net: Net): Reply {
    if sid in srv && srv[sid].alive then Seen(net, map["round" := Num(srv[sid].round as real)])
    else if net == Through then Rejected else Seen(net, map[])
  }

  /** POST /v2/session/{id}/turn: every accepted turn moves the round on by one. */
  function ServeTurn(srv: Server, sid: string, claim: int, net: Net): (Server, Reply) {
    if sid !in srv || !srv[sid].alive then (srv, if net == Through then Rejected else Seen(net, map[]))
    else
      var s := srv[sid];
      (if Arrives(net) then srv[sid := s.(round := s.round + 1, accepted := s.accepted + [claim])] else srv, Seen(net, map[]))
  }

  // ---- the client -----------------------------------------------------------------------------

  datatype Handle = Handle(
    sid: string, round: int, mode: string, created: bool, rehydrated: bool, recoveredFrom: string, enabled: bool, error: bool)

  /** jsonInt: zero and malformed numbers read as the default. */
  function JsonInt(d: Doc, key: string, def: int): int {
    if key !in d then def
    else match d[key]
         case Num(n) => if n == 0.0 then def else Trunc(n)
         case Str(s) => (match Undigits(s)
                         case None => def
                         case Some(m) => if m == 0 then def else m as int)
         case _ => def
  }

  /** A number reads as itself, as a number or in digits; zero, no number and no value read
      as the default. */
  lemma {:induction false} JsonIntReads(key: string, n: nat, text: string, def: int)
    ensures JsonInt(map[key := Str(Digits(n))], key, def) == if n == 0 then def else n
    ensures JsonInt(map[key := Num(n as real)], key, def) == if n == 0 then def else n
    ensures Undigits(text) == None ==> JsonInt(map[key := Str(text)], key, def) == def
    ensures JsonInt(map[], key, def) == def && JsonInt(map[key := Null], key, def) == def
  {
    DigitsBack(n);
    WholeNumber(n);
  }

  datatype SetupArgs = SetupArgs(prior: seq<Handle>, mode: string, enabled: bool)

  /** What the outside decides for one turn: the fate of each request, the id and round
      that a create would mint. */
  datatype Fate = Fate(rehydrate: Net, create: Net, commit: Net, minted: string, start: int)

  function ModeOf(mode: string): string { if mode == "" then "analytics" else mode }

  /** create: None is an error to the caller. */
  function Create(srv: Server, mode: string, recoveredFrom: string, f: Fate): (Server, Handle) {
    var (next, reply) := ServeCreate(srv, f.minted, f.start, f.create);
    (next,
     match reply
     case Body(body) =>
       var rnd := JsonInt(body, "round", 1);
       Handle(TrimSpace(AsString(body, "session_id")), if rnd <= 0 then 1 else rnd, mode, true, false, recoveredFrom, true, false)
     case _ => Handle("", 1, mode, false, false, recoveredFrom, true, true))
  }

  /** Setup: rehydrate what lives, create otherwise; a change of mode starts over.  The
      prior handle is a sequence of at most one. */
  function Setup(srv: Server, a: SetupArgs, f: Fate): (Server, Handle) {
    var mode := ModeOf(a.mode);
    var priorSid := if a.prior == [] then "" else TrimSpace(a.prior[0].sid);
    var priorMode := if a.prior == [] then "" else TrimSpace(a.prior[0].mode);
    if !a.enabled then (srv, Handle("", 1, mode, false, false, "", false, false))
    else if priorSid != "" && priorMode != "" && priorMode != TrimSpace(mode) then Create(srv, mode, "", f)
    else if priorSid != "" then
      match ServeRehydrate(srv, priorSid, f.rehydrate)
      case Body(body) =>
        var rehRound := JsonInt(body, "round", a.prior[0].round);
        (srv, Handle(priorSid, if rehRound > 0 then rehRound + 1 else 1, mode, false, true, "", true, false))
      case _ => Create(srv, mode, priorSid, f)
    else Create(srv, mode, "", f)
  }

  /** The round that a commit claims: one past the round of a session just created. */
  function Label(h: Handle): int { if h.created then h.round + 1 else h.round }

  datatype Entry = Entry(isMap: bool, role: string)

  /** A create already carried the user's message, so the first commit leaves it out. */
  function Sendable(delta: seq<Entry>, created: bool): seq<Entry> {
    if !created || delta == [] then delta
    else
      var front := Sendable(delta[..|delta| - 1], created);
      var last := delta[|delta| - 1];
      if last.isMap && last.role == "user" then front else front + [last]
  }

  method FilterDelta(h: Handle, delta: seq<Entry>) returns (turns: seq<Entry>)
    ensures turns == Sendable(delta, h.created)
  {
    if !h.created { return delta; }
    turns := [];
    for n := 0 to |delta|
      invariant turns == Sendable(delta[..n], true)
    {
      assert delta[..n + 1][..n] == delta[..n];
      if !(delta[n].isMap && delta[n].role == "user") { turns := turns + [delta[n]]; }
    }
    assert delta[..|delta|] == delta;
  }

  /** Commit: nothing to send is a success without a request. */
  function Commit(srv: Server, h: Handle, delta: seq<Entry>, net: Net): (Server, Handle, bool) {
    if !h.enabled || h.sid == "" then (srv, h, true)
    else if Sendable(delta, h.created) == [] then (srv, h.(round := Label(h), created := false), true)
    else
      var (next, reply) := ServeTurn(srv, h.sid, Label(h), net);
      if reply.Body? then (next, h.(round := Label(h), created := false, rehydrated := false, error := false), true)
      else (next, h.(error := true), false)
  }

  // ---- runs -------------------------------------------------------------------------------------

  /** A turn sets up on any handle it likes, sessions may die, and then it commits or gives
      up. */
  datatype Step =
    | Turn(args: SetupArgs, fate: Fate, killed: set<string>, commits: bool, delta: seq<Entry>)
    | Kill(sids: set<string>)

  function KillAll(srv: Server, sids: set<string>): Server {
    map k | k in srv :: if k in sids then srv[k].(alive := false) else srv[k]
  }

  /** Minted ids are fresh, visible and trimmed, and the first round is positive. */
  predicate Minting(srv: Server, f: Fate) {
    f.minted !in srv && f.minted != "" && TrimSpace(f.minted) == f.minted && f.start >= 1
  }

  predicate Enabled(srv: Server, step: Step) {
    step.Turn? ==> Minting(srv, step.fate) && |step.args.prior| <= 1
  }

  function Apply(srv: Server, step: Step): Server {
    match step
    case Kill(sids) => KillAll(srv, sids)
    case Turn(a, f, killed, commits, delta) =>
      var (s1, h) := Setup(srv, a, f);
      var s2 := KillAll(s1, killed);
      if commits then Commit(s2, h, delta, f.commit).0 else s2
  }

  ghost predicate Legal(steps: seq<Step>)
    decreases |steps|, 0
  {
    steps == [] || (Legal(steps[..|steps| - 1]) && Enabled(After(steps[..|steps| - 1]), steps[|steps| - 1]))
  }

  ghost function After(steps: seq<Step>): Server
    requires Legal(steps)
    decreases |steps|, 1
  {
    if steps == [] then map[] else Apply(After(steps[..|steps| - 1]), steps[|steps| - 1])
  }

  /** The accepted labels are start + 1, start + 2, ... with no gap and no repeat. */
  ghost predicate Consecutive(s: Session) {
    && s.start >= 1 && s.round == s.start + |s.accepted|
    && forall i :: 0 <= i < |s.accepted| ==> s.accepted[i] == s.start + 1 + i
  }

  ghost predicate Counted(srv: Server) {
    forall sid :: sid in srv ==> Consecutive(srv[sid])
  }

  lemma WholeNumber(n: int)
    ensures n != 0 ==> (n as real) != 0.0 && Trunc(n as real) == n
  {
  }

  /** What a set-up session handle promises: the server has the session, and the round the
      next commit will claim is the one the server expects. */
  lemma {:induction false} SetupInStep(srv: Server, a: SetupArgs, f: Fate)
    requires Counted(srv) && Minting(srv, f) && |a.prior| <= 1
    ensures var (next, h) := Setup(srv, a, f);
      && Counted(next)
      && (h.enabled && h.sid != "" ==> h.sid in next && next[h.sid].alive && Label(h) == next[h.sid].round + 1)
  {
    hide TrimSpace, Trunc, Undigits;
    WholeNumber(f.start);
    assert Consecutive(Session(f.start, f.start, true, []));
    if a.prior != [] {
      var sid := TrimSpace(a.prior[0].sid);
      if sid in srv {
        assert Consecutive(srv[sid]);
        WholeNumber(srv[sid].round);
      }
    }
  }

  lemma {:induction false} CommitKeeps(srv: Server, h: Handle, delta: seq<Entry>, net: Net)
    requires Counted(srv)
    requires h.enabled && h.sid != "" && h.sid in srv ==> Label(h) == srv[h.sid].round + 1
    ensures Counted(Commit(srv, h, delta, net).0)
  {
    hide Sendable;
    if h.sid in srv {
      var s := srv[h.sid];
      assert Consecutive(s);
      assert Consecutive(s.(round := s.round + 1, accepted := s.accepted + [s.round + 1]));
    }
  }

  lemma StepKeeps(srv: Server, step: Step)
    requires Counted(srv) && Enabled(srv, step)
    ensures Counted(Apply(srv, step))
  {
    hide Setup, Commit, Minting, Label;
    match step {
      case Kill(sids) => KillKeeps(srv, sids);
      case Turn(a, f, killed, commits, delta) =>
        SetupInStep(srv, a, f);
        var (s1, h) := Setup(srv, a, f);
        KillKeeps(s1, killed);
        if commits { CommitKeeps(KillAll(s1, killed), h, delta, f.commit); }
    }
  }

  lemma KillKeeps(srv: Server, sids: set<string>)
    requires Counted(srv)
    ensures Counted(KillAll(srv, sids))
    ensures KillAll(srv, sids).Keys == srv.Keys
    ensures forall k :: k in srv ==> KillAll(srv, sids)[k] == srv[k].(alive := srv[k].alive && k !in sids)
  {
    forall k | k in srv ensures Consecutive(KillAll(srv, sids)[k]) {
      assert Consecutive(srv[k]);
    }
  }

  /** Over every run, whatever is lost, fails, dies or is empty, the rounds that the server
      accepts for a session are consecutive from its first round on. */
  lemma {:induction false} RoundsConsecutive(steps: seq<Step>, sid: string)
    requires Legal(steps) && sid in After(steps)
    ensures Consecutive(After(steps)[sid])
  {
    AllCounted(steps);
  }

  lemma {:induction false} AllCounted(steps: seq<Step>)
    requires Legal(steps)
    ensures Counted(After(steps))
    decreases |steps|
  {
    hide Apply, Enabled;
    if steps != [] {
      AllCounted(steps[..|steps| - 1]);
      StepKeeps(After(steps[..|steps| - 1]), steps[|steps| - 1]);
    }
  }

  // ---- every case of a set-up and of a commit -----------------------------------------------------

  /** A set-up that starts a new session: the minted one if the create goes through, with a
      round of at least 1, and an error otherwise (the server may have it all the same). */
  ghost predicate Creates(srv: Server, next: Server, h: Handle, mode: string, recoveredFrom: string, f: Fate) {
    && (f.create == Through ==>
          h == Handle(TrimSpace(f.minted), if f.start >= 1 then f.start else 1, mode, true, false, recoveredFrom, true, false))
    && (f.create != Through ==> h == Handle("", 1, mode, false, false, recoveredFrom, true, true))
    && next == if f.create == Through || f.create == ReplyLost then srv[f.minted := Session(f.start, f.start, true, [])] else srv
  }

  lemma CreateCases(srv: Server, mode: string, recoveredFrom: string, f: Fate)
    ensures var (next, h) := Create(srv, mode, recoveredFrom, f); Creates(srv, next, h, mode, recoveredFrom, f)
  {
    hide TrimSpace, Trunc, Undigits;
    WholeNumber(f.start);
  }

  /** What a prior session that is alive and reached reads as its round. */
  lemma RoundShown(srv: Server, sid: string, def: int)
    requires sid in srv && srv[sid].alive
    ensures var reply := ServeRehydrate(srv, sid, Through);
      reply.Body? && JsonInt(reply.body, "round", def) == if srv[sid].round == 0 then def else srv[sid].round
  {
    hide Trunc;
    WholeNumber(srv[sid].round);
  }

  /** The whole outcome of a set-up.  Without sessions there is none; a prior session of
      another mode is left alone and a new one started; a prior session that is alive and
      reached is taken up again, one round on; and any other is replaced, on the record. */
  lemma {:induction false} SetupCases(srv: Server, a: SetupArgs, f: Fate)
    requires |a.prior| <= 1
    ensures var (next, h) := Setup(srv, a, f);
      var mode := if a.mode == "" then "analytics" else a.mode;
      var sid, before := if a.prior == [] then "" else TrimSpace(a.prior[0].sid), if a.prior == [] then "" else TrimSpace(a.prior[0].mode);
      if !a.enabled then next == srv && h == Handle("", 1, mode, false, false, "", false, false)
      else if sid == "" then Creates(srv, next, h, mode, "", f)
      else if before != "" && before != TrimSpace(mode) then Creates(srv, next, h, mode, "", f)
      else if sid in srv && srv[sid].alive && f.rehydrate == Through then
        var shown := if srv[sid].round == 0 then a.prior[0].round else srv[sid].round;
        next == srv && h == Handle(sid, if shown > 0 then shown + 1 else 1, mode, false, true, "", true, false)
      else Creates(srv, next, h, mode, sid, f)
  {
    hide TrimSpace, JsonInt, Create, Creates;
    BlankTrim();
    var mode := if a.mode == "" then "analytics" else a.mode;
    CreateCases(srv, mode, "", f);
    if a.prior != [] {
      var sid := TrimSpace(a.prior[0].sid);
      CreateCases(srv, mode, sid, f);
      if sid in srv && srv[sid].alive { RoundShown(srv, sid, a.prior[0].round); }
    }
  }

  /** A session changes its mode only by starting anew: one that is taken up again was of
      the mode asked for, or of none; and from another mode the turn comes out with the
      session just minted, or with none and an error. */
  lemma {:induction false} ModeSwitchStartsAnew(srv: Server, a: SetupArgs, f: Fate)
    requires |a.prior| <= 1
    ensures var (next, h) := Setup(srv, a, f);
      var mode := TrimSpace(if a.mode == "" then "analytics" else a.mode);
      && (h.rehydrated ==> a.prior != [] && (TrimSpace(a.prior[0].mode) == "" || TrimSpace(a.prior[0].mode) == mode))
      && (a.enabled && a.prior != [] && TrimSpace(a.prior[0].mode) != "" && TrimSpace(a.prior[0].mode) != mode ==>
            h.recoveredFrom == "" && if f.create == Through then h.sid == TrimSpace(f.minted) && h.created else h.sid == "" && h.error)
  {
    hide TrimSpace, Setup;
    SetupCases(srv, a, f);
  }

  /** What is sent: after a create everything but the user's messages. */
  lemma {:induction false} SentEntries(delta: seq<Entry>, e: Entry)
    ensures Sendable(delta, false) == delta
    ensures e in Sendable(delta, true) <==> e in delta && !(e.isMap && e.role == "user")
    decreases |delta|
  {
    if delta != [] {
      SentEntries(delta[..|delta| - 1], e);
      assert delta == delta[..|delta| - 1] + [delta[|delta| - 1]];
    }
  }

  /** The whole outcome of a commit.  A handle without a session, and a turn with nothing to
      send, need no server; otherwise the server of a live session moves on by one round
      under the label claimed, and the client learns of it if the reply comes through. */
  lemma {:induction false} CommitCases(srv: Server, h: Handle, delta: seq<Entry>, net: Net)
    ensures var (next, g, ok) := Commit(srv, h, delta, net);
      var claim := if h.created then h.round + 1 else h.round;
      var arrived := net == Through || net == ReplyLost;
      if !h.enabled || h.sid == "" then next == srv && g == h && ok
      else if Sendable(delta, h.created) == [] then next == srv && g == h.(round := claim, created := false) && ok
      else
        var alive := h.sid in srv && srv[h.sid].alive;
        && next == (if alive && arrived then
                      srv[h.sid := srv[h.sid].(round := srv[h.sid].round + 1, accepted := srv[h.sid].accepted + [claim])]
                    else srv)
        && (ok <==> alive && net == Through)
        && g == if ok then h.(round := claim, created := false, rehydrated := false, error := false) else h.(error := true)
  {
    hide Sendable;
  }

  /** A session id is never invented: the one that comes back is the prior one, which the
      server then knew and kept alive, or the one it minted in this call, or none. */
  lemma {:induction false} IdsAreMinted(srv: Server, a: SetupArgs, f: Fate)
    requires Minting(srv, f) && |a.prior| <= 1
    ensures var (next, h) := Setup(srv, a, f);
      || h.sid == ""
      || (h.created && h.sid == f.minted && f.create == Through)
      || (h.rehydrated && a.prior != [] && h.sid == TrimSpace(a.prior[0].sid) && h.sid in srv && srv[h.sid].alive)
  {
    hide TrimSpace, JsonInt;
  }

  /** A dead or unknown id leads to a fresh id, or to an error; never back to itself. */
  lemma {:induction false} DeadIsReplaced(srv: Server, a: SetupArgs, f: Fate)
    requires Minting(srv, f) && |a.prior| == 1 && a.enabled
    requires var sid := TrimSpace(a.prior[0].sid); sid != "" && (sid !in srv || !srv[sid].alive)
    ensures var (next, h) := Setup(srv, a, f);
      && (f.create == Through ==> h.sid == f.minted && h.created && !h.error)
      && (f.create != Through ==> h.sid == "" && h.error)
  {
    hide TrimSpace, JsonInt;
  }

  /** Why one commit for each set-up: committing twice on the handles of one set-up makes
      the server accept the same round twice, always. */
  lemma {:induction false} SecondCommitRepeats(srv: Server, h: Handle, delta: seq<Entry>)
    requires h.enabled && h.sid != "" && h.sid in srv && srv[h.sid].alive
    requires Sendable(delta, h.created) != []
    ensures var (s1, h1, _) := Commit(srv, h, delta, Through);
            var (s2, _, _) := Commit(s1, h1, delta, Through);
            s2[h.sid].accepted == srv[h.sid].accepted + [Label(h), Label(h)]
  {
    SomethingStays(delta, h.created);
  }

  lemma SomethingStays(delta: seq<Entry>, created: bool)
    requires Sendable(delta, created) != []
    ensures Sendable(delta, false) != []
  {
  }

  /** Remark, why the first round must be positive: only then does the label of the first
      commit after a create continue the count of the server. */
  lemma {:induction false} FirstRoundExact(srv: Server, next: Server, h: Handle, mode: string, recoveredFrom: string, f: Fate)
    requires Creates(srv, next, h, mode, recoveredFrom, f) && f.create == Through
    ensures f.minted in next && (Label(h) == next[f.minted].round + 1 <==> f.start >= 1)
  {
    hide TrimSpace;
  }

  /** A server that counts from zero is claimed the same round twice by two clean turns,
      whatever the first of them sends. */
  lemma {:induction false} ZeroRoundRepeats(sid: string, mode: string, delta: seq<Entry>)
    requires sid != "" && TrimSpace(sid) == sid && Sendable(delta, true) != []
    ensures var f := Fate(Through, Through, Through, sid, 0);
            var (s1, h1) := Setup(map[], SetupArgs([], mode, true), f);
            var (s2, h2, _) := Commit(s1, h1, delta, Through);
            var (s3, h3) := Setup(s2, SetupArgs([h2], mode, true), f);
            Label(h1) == 2 && Label(h3) == 2 && sid in s3 && s3[sid].accepted == [2]
  {
    hide TrimSpace, Trunc, Undigits, Sendable, ModeOf;
    var f := Fate(Through, Through, Through, sid, 0);
    var (s1, h1) := Setup(map[], SetupArgs([], mode, true), f);
    assert h1 == Handle(sid, 1, ModeOf(mode), true, false, "", true, false);
    var (s2, h2, _) := Commit(s1, h1, delta, Through);
    assert s2[sid] == Session(0, 1, true, [2]) && h2.sid == sid && h2.mode == ModeOf(mode);
    hide Commit;
    WholeNumber(1);
    var (s3, h3) := Setup(s2, SetupArgs([h2], mode, true), f);
    assert ServeRehydrate(s2, sid, Through) == Body(map["round" := Num(1 as real)]);
  }
}
