/** The security hooks of a turn (application/middleware.go) over the assessments that
    security/jailbreak.go collapses from pattern hits. */
module Hooks {
  import opened Collections
  import opened Json

  const HARD_REFUSE := 0.85
  const DENIED_VERB := 0.6

  datatype Hit = Hit(id: string, score: real)

  datatype Assessment = Assessment(score: real, mustRefuse: bool, hits: seq<Hit>)

  /** The ids in the order of their first appearance. */
  function FirstSeen(ids: seq<string>): (r: seq<string>)
    ensures NoDup(r) && forall x :: x in r <==> x in ids
    decreases |ids|
  {
    if ids == [] then []
    else
      var front := FirstSeen(ids[..|ids| - 1]);
      var last := ids[|ids| - 1];
      assert ids == ids[..|ids| - 1] + [last];
      if last in front then front else front + [last]
  }

  function Ids(hits: seq<Hit>): seq<string> {
    seq(|hits|, i requires 0 <= i < |hits| => hits[i].id)
  }

  function Max(a: real, b: real): real { if a >= b then a else b }

  function Capped(score: real): real { if score > 1.0 then 1.0 else score }

  ghost predicate IsBest(hits: seq<Hit>, h: Hit) {
    h in hits && forall i :: 0 <= i < |hits| && hits[i].id == h.id ==> hits[i].score <= h.score
  }

  /** The score, capped at 1, of the highest hit; zero without hits. */
  ghost predicate IsTop(hits: seq<Hit>, score: real) {
    && 0.0 <= score <= 1.0
    && (forall i :: 0 <= i < |hits| ==> Capped(hits[i].score) <= score)
    && (score == 0.0 || exists i :: 0 <= i < |hits| && score == Capped(hits[i].score))
  }

  ghost predicate Sound(a: Assessment) {
    0.0 <= a.score <= 1.0 && (a.mustRefuse <==> a.score >= HARD_REFUSE)
  }

  lemma FirstSeenPush(ids: seq<string>, x: string)
    ensures FirstSeen(ids + [x]) == if x in ids then FirstSeen(ids) else FirstSeen(ids) + [x]
  {
    assert (ids + [x])[..|ids|] == ids;
  }

  lemma IdsPush(hits: seq<Hit>, n: nat)
    requires n < |hits|
    ensures Ids(hits[..n + 1]) == Ids(hits[..n]) + [hits[n].id]
    ensures hits[..n + 1] == hits[..n] + [hits[n]]
  {
  }

  lemma IdOccurs(hits: seq<Hit>, id: string)
    ensures id in Ids(hits) <==> exists i :: 0 <= i < |hits| && hits[i].id == id
  {
    if id in Ids(hits) {
      var k :| 0 <= k < |hits| && Ids(hits)[k] == id;
    } else {
      forall i | 0 <= i < |hits| ensures hits[i].id != id {
        assert Ids(hits)[i] == hits[i].id;
      }
    }
  }

  lemma BestPush(hits: seq<Hit>, b: Hit, h: Hit)
    requires IsBest(hits, b)
    ensures b.id != h.id || h.score <= b.score ==> IsBest(hits + [h], b)
    ensures b.id == h.id && h.score > b.score ==> IsBest(hits + [h], h)
  {
  }

  /** The first loop of collapseHits: the best hit of every id, and the ids in order. */
  method BestHits(hits: seq<Hit>) returns (best: map<string, Hit>, order: seq<string>)
    ensures order == FirstSeen(Ids(hits))
    ensures forall x :: x in best <==> x in order
    ensures forall x :: x in best ==> best[x].id == x && IsBest(hits, best[x])
  {
    hide FirstSeen, Ids, IsBest;
    best, order := map[], [];
    NothingSeen(hits);
    for n := 0 to |hits|
      invariant order == FirstSeen(Ids(hits[..n]))
      invariant forall x :: x in best <==> x in order
      invariant forall x :: x in best ==> best[x].id == x && IsBest(hits[..n], best[x])
    {
      var h := hits[n];
      IdsPush(hits, n);
      FirstSeenPush(Ids(hits[..n]), h.id);
      forall x | x in best
        ensures x != h.id || h.score <= best[x].score ==> IsBest(hits[..n + 1], best[x])
        ensures x == h.id && h.score > best[x].score ==> IsBest(hits[..n + 1], h)
      {
        BestPush(hits[..n], best[x], h);
      }
      if h.id !in best {
        NewIsBest(hits[..n], h);
        order := order + [h.id];
        best := best[h.id := h];
      } else if h.score > best[h.id].score {
        best := best[h.id := h];
      }
    }
    assert hits[..|hits|] == hits;
  }

  lemma NothingSeen(hits: seq<Hit>)
    ensures FirstSeen(Ids(hits[..0])) == []
  {
  }

  lemma NewIsBest(hits: seq<Hit>, h: Hit)
    requires h.id !in Ids(hits)
    ensures IsBest(hits + [h], h)
  {
    IdOccurs(hits, h.id);
  }

  lemma TopOf(hits: seq<Hit>, uniq: seq<Hit>, top: real)
    requires top >= 0.0 && forall i :: 0 <= i < |uniq| ==> uniq[i].score <= top
    requires top == 0.0 || exists i :: 0 <= i < |uniq| && uniq[i].score == top
    requires Ids(uniq) == FirstSeen(Ids(hits)) && forall i :: 0 <= i < |uniq| ==> IsBest(hits, uniq[i])
    ensures IsTop(hits, Capped(top))
  {
    hide FirstSeen;
    forall i | 0 <= i < |hits| ensures hits[i].score <= top {
      IdOccurs(hits, hits[i].id);
      IdOccurs(uniq, hits[i].id);
      var k :| 0 <= k < |uniq| && uniq[k].id == hits[i].id;
    }
  }

  /** The second loop of collapseHits: the best hits in order, and the highest score. */
  method Collect(best: map<string, Hit>, order: seq<string>) returns (uniq: seq<Hit>, top: real)
    requires forall i :: 0 <= i < |order| ==> order[i] in best
    ensures |uniq| == |order| && forall i :: 0 <= i < |order| ==> uniq[i] == best[order[i]]
    ensures top >= 0.0 && forall i :: 0 <= i < |uniq| ==> uniq[i].score <= top
    ensures top == 0.0 || exists i :: 0 <= i < |uniq| && uniq[i].score == top
  {
    uniq, top := [], 0.0;
    ghost var at := 0;
    for n := 0 to |order|
      invariant |uniq| == n && forall i :: 0 <= i < n ==> uniq[i] == best[order[i]]
      invariant top >= 0.0 && forall i :: 0 <= i < n ==> uniq[i].score <= top
      invariant top == 0.0 || (0 <= at < n && uniq[at].score == top)
    {
      var h := best[order[n]];
      uniq := uniq + [h];
      if h.score > top { top, at := h.score, n; }
    }
  }

  /** collapseHits: one hit per id, the best one, in first-seen order. */
  method CollapseHits(hits: seq<Hit>) returns (a: Assessment)
    ensures Sound(a) && IsTop(hits, a.score)
    ensures Ids(a.hits) == FirstSeen(Ids(hits))
    ensures forall i :: 0 <= i < |a.hits| ==> IsBest(hits, a.hits[i])
  {
    if |hits| == 0 { return Assessment(0.0, false, []); }
    hide FirstSeen, IsBest, IsTop;
    var best, order := BestHits(hits);
    var uniq, top := Collect(best, order);
    assert Ids(uniq) == order;
    TopOf(hits, uniq, top);
    if top > 1.0 { top := 1.0; }
    a := Assessment(top, top >= HARD_REFUSE, uniq);
  }

  // ---- the hook state ---------------------------------------------------------------------

  /** What the hooks keep in the turn's data. */
  datatype State = State(score: real, mustRefuse: bool, hits: seq<string>, denied: seq<string>, override: Option<string>)

  const FRESH := State(0.0, false, [], [], None)

  const UNTRUSTED := "{\"error\":\"untrusted_tool_payload\"}"

  /** foldAssessment */
  function Fold(s: State, a: Assessment): State {
    var score := Capped(Max(s.score, a.score));
    s.(score := score, mustRefuse := s.mustRefuse || a.mustRefuse || score >= HARD_REFUSE,
       hits := FirstSeen(s.hits + Ids(a.hits)))
  }

  function FoldAll(s: State, all: seq<Assessment>): State
    decreases |all|
  {
    if all == [] then s else Fold(FoldAll(s, all[..|all| - 1]), all[|all| - 1])
  }

  /** denyVerb */
  function Deny(s: State, name: string): State {
    s.(denied := if name in s.denied then s.denied else s.denied + [name], score := Max(s.score, DENIED_VERB))
  }

  /** OnTurnStart: scores the ask, a denied verb counts as DENIED_VERB. */
  function TurnStart(s: State, a: Assessment): State {
    var f := Fold(s, a);
    var score := Capped(if f.denied != [] then Max(f.score, DENIED_VERB) else f.score);
    f.(score := score, mustRefuse := f.mustRefuse || score >= HARD_REFUSE)
  }

  /** verbDenied: a configured verb, or one outside a non-empty catalog. */
  predicate VerbDenied(deniedVerbs: seq<string>, catalog: set<string>, name: string) {
    name in deniedVerbs || (catalog != {} && name !in catalog && name != "return" && name != "return_result")
  }

  function BeforeZeus(s: State, deniedVerbs: seq<string>, catalog: set<string>, name: string): State {
    if VerbDenied(deniedVerbs, catalog, name) then Deny(s, name) else s
  }

  function AfterZeus(s: State, a: Assessment): State {
    if a.mustRefuse then Fold(s, a).(override := Some(UNTRUSTED)) else Fold(s, a)
  }

  /** The state that every hook keeps: the refusal flag is the score's verdict. */
  ghost predicate Agree(s: State) {
    && 0.0 <= s.score <= 1.0 && (s.mustRefuse <==> s.score >= HARD_REFUSE) && NoDup(s.hits) && NoDup(s.denied)
    && (s.override.Some? ==> s.override.value == UNTRUSTED)
  }

  /** Later states of a turn: the score, the flag, the hits and the denied verbs only grow. */
  ghost predicate Grows(s: State, t: State) {
    s.score <= t.score && (s.mustRefuse ==> t.mustRefuse) && s.hits <= t.hits && s.denied <= t.denied
  }

  lemma {:induction false} FirstSeenExtends(ids: seq<string>, more: seq<string>)
    requires NoDup(ids)
    ensures ids <= FirstSeen(ids + more)
    decreases |ids| + |more|
  {
    if more != [] {
      assert (ids + more)[..|ids + more| - 1] == ids + more[..|more| - 1];
      FirstSeenExtends(ids, more[..|more| - 1]);
    } else if ids != [] {
      assert ids + more == ids;
      assert ids[..|ids| - 1] + [] == ids[..|ids| - 1];
      FirstSeenExtends(ids[..|ids| - 1], []);
      FirstSeenSame(ids);
    }
  }

  lemma {:induction false} FirstSeenSame(ids: seq<string>)
    requires NoDup(ids)
    ensures FirstSeen(ids) == ids
    decreases |ids|
  {
    if ids != [] { FirstSeenSame(ids[..|ids| - 1]); }
  }

  lemma FoldKeeps(s: State, a: Assessment)
    requires Agree(s) && Sound(a)
    ensures Agree(Fold(s, a)) && Grows(s, Fold(s, a))
  {
    hide FirstSeen;
    FirstSeenExtends(s.hits, Ids(a.hits));
  }

  lemma {:induction false} FoldAllKeeps(s: State, all: seq<Assessment>)
    requires Agree(s) && forall i :: 0 <= i < |all| ==> Sound(all[i])
    ensures Agree(FoldAll(s, all)) && Grows(s, FoldAll(s, all))
    decreases |all|
  {
    hide Fold;
    if all != [] {
      FoldAllKeeps(s, all[..|all| - 1]);
      FoldKeeps(FoldAll(s, all[..|all| - 1]), all[|all| - 1]);
    }
  }

  /** Only an alarm raises the flag, and each one does. */
  lemma FoldHeeds(s: State, a: Assessment)
    requires Agree(s) && Sound(a)
    ensures Fold(s, a).mustRefuse <==> s.mustRefuse || a.mustRefuse
  {
    hide FirstSeen;
  }

  /** Many assessments raise the flag exactly when one of them is an alarm. */
  lemma {:induction false} FoldAllHeeds(s: State, all: seq<Assessment>)
    requires Agree(s) && forall i :: 0 <= i < |all| ==> Sound(all[i])
    ensures FoldAll(s, all).mustRefuse <==> s.mustRefuse || exists a :: a in all && a.mustRefuse
    decreases |all|
  {
    hide Fold;
    if all != [] {
      var front, last := all[..|all| - 1], all[|all| - 1];
      FoldAllHeeds(s, front);
      FoldAllKeeps(s, front);
      FoldHeeds(FoldAll(s, front), last);
      assert all == front + [last];
    }
  }

  /** Assessments touch neither the denied verbs nor a pending override. */
  lemma {:induction false} FoldAllLeaves(h: State, all: seq<Assessment>)
    ensures FoldAll(h, all).denied == h.denied && FoldAll(h, all).override == h.override
    decreases |all|
  {
    hide FirstSeen;
    if all != [] { FoldAllLeaves(h, all[..|all| - 1]); }
  }

  /** Neither a denied verb nor the start of a turn raises the flag by itself. */
  lemma CallHeeds(s: State, deniedVerbs: seq<string>, catalog: set<string>, name: string)
    requires Agree(s)
    ensures BeforeZeus(s, deniedVerbs, catalog, name).mustRefuse == s.mustRefuse
  {
  }

  lemma StartHeeds(a: Assessment)
    requires Sound(a)
    ensures TurnStart(FRESH, a).mustRefuse == a.mustRefuse
  {
    hide FirstSeen;
    FoldHeeds(FRESH, a);
  }

  /** What AfterLLM looks at: the content, and then every call's raw arguments. */
  function ReplyParts(assess: Value -> Assessment, content: Value, args: seq<Value>): seq<Assessment> {
    [assess(content)] + seq(|args|, i requires 0 <= i < |args| => assess(args[i]))
  }

  datatype Event =
    | Started(ask: Assessment)
    | Replied(parts: seq<Assessment>)
    | Calling(name: string)
    | Answered(body: Assessment)
    | Inspected(answer: Assessment)

  ghost predicate SoundEvent(e: Event) {
    match e
    case Started(a) => Sound(a)
    case Replied(parts) => forall i :: 0 <= i < |parts| ==> Sound(parts[i])
    case Calling(_) => true
    case Answered(a) => Sound(a)
    case Inspected(a) => Sound(a)
  }

  function On(s: State, e: Event, deniedVerbs: seq<string>, catalog: set<string>): State {
    match e
    case Started(a) => TurnStart(s, a)
    case Replied(parts) => FoldAll(s, parts)
    case Calling(name) => BeforeZeus(s, deniedVerbs, catalog, name)
    case Answered(a) => AfterZeus(s, a)
    case Inspected(a) => Fold(s, a)
  }

  lemma EventKeeps(s: State, e: Event, deniedVerbs: seq<string>, catalog: set<string>)
    requires Agree(s) && SoundEvent(e)
    ensures Agree(On(s, e, deniedVerbs, catalog)) && Grows(s, On(s, e, deniedVerbs, catalog))
  {
    hide Fold, FoldAll, VerbDenied;
    match e {
      case Started(a) => FoldKeeps(s, a);
      case Replied(parts) => FoldAllKeeps(s, parts);
      case Calling(_) =>
      case Answered(a) => FoldKeeps(s, a);
      case Inspected(a) => FoldKeeps(s, a);
    }
  }

  function OnAll(s: State, es: seq<Event>, deniedVerbs: seq<string>, catalog: set<string>): State
    decreases |es|
  {
    if es == [] then s else On(OnAll(s, es[..|es| - 1], deniedVerbs, catalog), es[|es| - 1], deniedVerbs, catalog)
  }

  /** In every reachable state of a turn, whatever hooks ran in whatever order, the flag
      is the score's verdict and hits are duplicate-free; and along the run both only
      grow. */
  lemma {:induction false} FlagAndScoreAgree(es: seq<Event>, k: nat, deniedVerbs: seq<string>, catalog: set<string>)
    requires k <= |es| && forall i :: 0 <= i < |es| ==> SoundEvent(es[i])
    ensures Agree(OnAll(FRESH, es, deniedVerbs, catalog))
    ensures Grows(OnAll(FRESH, es[..k], deniedVerbs, catalog), OnAll(FRESH, es, deniedVerbs, catalog))
    decreases |es|
  {
    hide On, SoundEvent;
    if es != [] {
      var n := |es| - 1;
      FlagAndScoreAgree(es[..n], if k < n then k else n, deniedVerbs, catalog);
      EventKeeps(OnAll(FRESH, es[..n], deniedVerbs, catalog), es[n], deniedVerbs, catalog);
      if k <= n {
        assert es[..n][..k] == es[..k];
      } else {
        assert es[..k] == es;
      }
    } else {
      assert es[..k] == es;
    }
  }

  /** Appends the ids that are not there yet. */
  method AddUnseen(hits: seq<string>, ids: seq<string>) returns (seen: seq<string>)
    requires NoDup(hits)
    ensures seen == FirstSeen(hits + ids)
  {
    hide FirstSeen;
    seen := hits;
    FirstSeenSame(hits);
    assert hits + ids[..0] == hits;
    for n := 0 to |ids|
      invariant seen == FirstSeen(hits + ids[..n])
    {
      assert hits + ids[..n + 1] == (hits + ids[..n]) + [ids[n]];
      FirstSeenPush(hits + ids[..n], ids[n]);
      if ids[n] !in seen { seen := seen + [ids[n]]; }
    }
    assert ids[..|ids|] == ids;
  }

  lemma FoldOne(s: State, a: Assessment)
    ensures FoldAll(s, [a]) == Fold(s, a) && NoDup(Fold(s, a).hits)
  {
    assert [a][..0] == [];
  }

  lemma FoldNoDup(s: State, a: Assessment)
    ensures NoDup(Fold(s, a).hits)
  {
  }

  /** MiddlewareContext with the default chain of one SecurityHooks. */
  class MiddlewareContext {
    const deniedVerbs: seq<string>
    const catalog: set<string>
    var score: real
    var mustRefuse: bool
    var hits: seq<string>
    var denied: seq<string>
    var override: Option<string>

    ghost function Value(): State reads this { State(score, mustRefuse, hits, denied, override) }

    constructor (deniedVerbs: seq<string>, catalog: set<string>)
      ensures Value() == FRESH && this.deniedVerbs == deniedVerbs && this.catalog == catalog
    {
      this.deniedVerbs, this.catalog := deniedVerbs, catalog;
      score, mustRefuse, hits, denied, override := 0.0, false, [], [], None;
    }

    method FoldAssessment(a: Assessment)
      requires NoDup(hits)
      modifies this
      ensures Value() == Fold(old(Value()), a)
    {
      var s := score;
      if a.score > s { s := a.score; }
      if s > 1.0 { s := 1.0; }
      score := s;
      if a.mustRefuse || s >= HARD_REFUSE { mustRefuse := true; }
      hits := AddUnseen(hits, Ids(a.hits));
    }

    method OnTurnStart(ask: Assessment)
      requires NoDup(hits)
      modifies this
      ensures Value() == TurnStart(old(Value()), ask)
    {
      FoldAssessment(ask);
      if |denied| > 0 && score < DENIED_VERB { score := DENIED_VERB; }
      if score > 1.0 { score := 1.0; }
      mustRefuse := mustRefuse || score >= HARD_REFUSE;
    }

    /** The content and then the raw arguments of every tool call. */
    method AfterLLM(assess: Value -> Assessment, content: Value, args: seq<Value>)
      requires NoDup(hits)
      modifies this
      ensures Value() == FoldAll(old(Value()), ReplyParts(assess, content, args))
    {
      hide Fold;
      ghost var was := Value();
      FoldOne(was, assess(content));
      FoldAssessment(assess(content));
      assert ReplyParts(assess, content, args[..0]) == [assess(content)];
      for n := 0 to |args|
        invariant NoDup(hits) && Value() == FoldAll(was, ReplyParts(assess, content, args[..n]))
      {
        ghost var parts := ReplyParts(assess, content, args[..n + 1]);
        assert parts[..|parts| - 1] == ReplyParts(assess, content, args[..n]);
        FoldAssessment(assess(args[n]));
        FoldNoDup(FoldAll(was, parts[..|parts| - 1]), assess(args[n]));
      }
      assert args[..|args|] == args;
    }

    method DenyVerb(name: string)
      modifies this
      ensures Value() == Deny(old(Value()), name)
    {
      if name !in denied { denied := denied + [name]; }
      if score < DENIED_VERB { score := DENIED_VERB; }
    }

    method BeforeCall(name: string)
      modifies this
      ensures Value() == BeforeZeus(old(Value()), deniedVerbs, catalog, name)
      ensures name !in deniedVerbs && (catalog == {} || name in catalog || name == "return" || name == "return_result") ==>
        Value() == old(Value())
      ensures name in deniedVerbs || (catalog != {} && name !in catalog && name != "return" && name != "return_result") ==>
        name in denied && (forall x :: x in denied <==> x in old(denied) || x == name) && score >= 0.6
        && mustRefuse == old(mustRefuse) && hits == old(hits)
    {
      if VerbDenied(deniedVerbs, catalog, name) { DenyVerb(name); }
    }

    method AfterCall(body: Assessment)
      requires NoDup(hits)
      modifies this
      ensures Value() == AfterZeus(old(Value()), body)
    {
      FoldAssessment(body);
      if body.mustRefuse { override := Some(UNTRUSTED); }
    }

    /** The override is used up by the call that reads it. */
    method TakeOverride() returns (text: Option<string>)
      modifies this`override
      ensures text == old(override) && Value() == old(Value()).(override := None)
    {
      text := override;
      override := None;
    }
  }
}
