/** The span forest of a turn, rebuilt from its journal (application/debug_export.go). */
module SpanForest {
  import opened Journal

  datatype Span = Span(id: string, name: string, parent: string, turn: string, started: int, ended: int, status: string)

  datatype Node = Node(span: Span, children: seq<Node>)

  /** The last row of a kind for every id. */
  function LastOf(evs: seq<Ev>, kind: Kind): map<string, Ev>
    decreases |evs|
  {
    if evs == [] then map[]
    else
      var front, last := LastOf(evs[..|evs| - 1], kind), evs[|evs| - 1];
      if last.id != "" && last.kind == kind then front[last.id := last] else front
  }

  function MakeSpan(s: Ev, ended: map<string, Ev>): Span {
    var name := if s.name != "" then s.name else s.id;
    if s.id !in ended then Span(s.id, name, s.parent, s.turn, s.ts, 0, "")
    else
      var e := ended[s.id];
      Span(s.id, if name == s.id && e.name != "" then e.name else name, s.parent, s.turn, s.ts, e.ts, e.status)
  }

  /** What a span shows: where it started, its last end if there is one, and a name of its
      own, else that of its end, else its id. */
  lemma {:induction false} SpanShows(s: Ev, ended: map<string, Ev>)
    ensures var n := MakeSpan(s, ended);
      && n.id == s.id && n.parent == s.parent && n.turn == s.turn && n.started == s.ts
      && (s.id !in ended ==> n.ended == 0 && n.status == "" && n.name == if s.name == "" then s.id else s.name)
      && (s.id in ended ==> n.ended == ended[s.id].ts && n.status == ended[s.id].status)
      && (s.id in ended ==>
            n.name == if s.name != "" && s.name != s.id then s.name
                      else if ended[s.id].name != "" then ended[s.id].name else s.id)
  {
  }

  type Nodes = map<string, Span>

  function NodesOf(evs: seq<Ev>): Nodes {
    var started, ended := LastOf(evs, SpanStarted), LastOf(evs, SpanEnded);
    map id | id in started :: MakeSpan(started[id], ended)
  }

  method CollectNodes(evs: seq<Ev>) returns (nodes: Nodes)
    ensures nodes == NodesOf(evs)
  {
    var started: map<string, Ev>, ended: map<string, Ev> := map[], map[];
    for n := 0 to |evs|
      invariant started == LastOf(evs[..n], SpanStarted) && ended == LastOf(evs[..n], SpanEnded)
    {
      assert evs[..n + 1][..n] == evs[..n];
      var ev := evs[n];
      if ev.id != "" {
        match ev.kind {
          case SpanStarted => started := started[ev.id := ev];
          case SpanEnded => ended := ended[ev.id := ev];
          case Other =>
        }
      }
    }
    assert evs[..|evs|] == evs;
    nodes := map id | id in started :: MakeSpan(started[id], ended);
  }

  // ---- parents have smaller ranks -----------------------------------------------------------------

  ghost predicate Ordered(nodes: Nodes, rank: map<string, nat>) {
    forall id :: id in nodes ==>
      nodes[id].id == id && id in rank && (nodes[id].parent in nodes ==> nodes[id].parent in rank && rank[nodes[id].parent] < rank[id])
  }

  /** The position of the row that starts each span. */
  ghost function StartRank(evs: seq<Ev>): (rank: map<string, nat>)
    ensures forall id :: id in rank ==> rank[id] < |evs|
    decreases |evs|
  {
    if evs == [] then map[]
    else
      var front, last := StartRank(evs[..|evs| - 1]), evs[|evs| - 1];
      if last.id != "" && last.kind.SpanStarted? then front[last.id := |evs| - 1] else front
  }

  lemma {:induction false} Starts(evs: seq<Ev>, id: string)
    ensures id in LastOf(evs, SpanStarted) <==> id in StartRank(evs)
    ensures id in LastOf(evs, SpanStarted) ==>
      var i := StartRank(evs)[id];
      evs[i] == LastOf(evs, SpanStarted)[id] && evs[i].kind.SpanStarted? && evs[i].id == id
    ensures id in LastOf(evs, SpanStarted) <==> id != "" && exists i :: 0 <= i < |evs| && evs[i].kind.SpanStarted? && evs[i].id == id
    decreases |evs|
  {
    if evs != [] {
      var front := evs[..|evs| - 1];
      Starts(front, id);
      assert forall i :: 0 <= i < |front| ==> evs[i] == front[i];
    }
  }

  /** On a well-formed journal every edge goes from an earlier to a later start. */
  lemma {:induction false} WellFormedOrdered(evs: seq<Ev>)
    requires WellFormed(evs)
    ensures Ordered(NodesOf(evs), StartRank(evs))
  {
    hide LastOf, StartRank;
    var nodes := NodesOf(evs);
    forall id | id in nodes
      ensures nodes[id].id == id && id in StartRank(evs)
      ensures nodes[id].parent in nodes ==>
        nodes[id].parent in StartRank(evs) && StartRank(evs)[nodes[id].parent] < StartRank(evs)[id]
    {
      Starts(evs, id);
      var parent := nodes[id].parent;
      Starts(evs, parent);
      if parent in nodes {
        var i, j := StartRank(evs)[id], StartRank(evs)[parent];
        assert evs[i].parent == evs[j].id;
      }
    }
  }

  // ---- grouping and nesting -------------------------------------------------------------------------

  ghost predicate Distinct(spans: seq<Span>) {
    forall i, j :: 0 <= i < j < |spans| ==> spans[i].id != spans[j].id
  }

  ghost predicate Lists(spans: seq<Span>, nodes: Nodes, which: set<string>) {
    && Distinct(spans)
    && (forall i :: 0 <= i < |spans| ==> spans[i].id in which && spans[i].id in nodes && nodes[spans[i].id] == spans[i])
    && (forall id :: id in which && id in nodes ==> exists i :: 0 <= i < |spans| && spans[i].id == id)
  }

  function Roots(nodes: Nodes): set<string> {
    set id | id in nodes && nodes[id].parent !in nodes
  }

  function KidsOf(nodes: Nodes, p: string): set<string> {
    set id | id in nodes && nodes[id].parent == p
  }

  type Kids = map<string, seq<Span>>

  function At(kids: Kids, p: string): seq<Span> { if p in kids then kids[p] else [] }

  /** Each node is a root, or a child of its parent, exactly once. */
  ghost predicate Grouped(nodes: Nodes, roots: seq<Span>, kids: Kids) {
    && Lists(roots, nodes, Roots(nodes))
    && forall p :: p in nodes ==> Lists(At(kids, p), nodes, KidsOf(nodes, p))
  }

  ghost predicate GroupedUpTo(nodes: Nodes, todo: set<string>, roots: seq<Span>, kids: Kids) {
    && Lists(roots, nodes, Roots(nodes) - todo)
    && (forall p :: p in nodes ==> Lists(At(kids, p), nodes, KidsOf(nodes, p) - todo))
  }

  lemma ListsPush(spans: seq<Span>, nodes: Nodes, which: set<string>, n: Span)
    requires Lists(spans, nodes, which) && n.id in nodes && nodes[n.id] == n && n.id !in which
    ensures Lists(spans + [n], nodes, which + {n.id})
  {
    var all := spans + [n];
    assert all[|spans|] == n;
    forall id | id in which + {n.id} && id in nodes ensures exists i :: 0 <= i < |all| && all[i].id == id {
      if id in which {
        var i :| 0 <= i < |spans| && spans[i].id == id;
        assert all[i].id == id;
      }
    }
  }

  /** The loop over the nodes, which come in no particular order. */
  method Group(nodes: Nodes) returns (roots: seq<Span>, kids: Kids)
    requires forall id :: id in nodes ==> nodes[id].id == id
    ensures Grouped(nodes, roots, kids)
  {
    hide Lists;
    roots, kids := [], map[];
    var todo := nodes.Keys;
    NothingListed(nodes);
    while todo != {}
      invariant todo <= nodes.Keys && GroupedUpTo(nodes, todo, roots, kids)
    {
      var id :| id in todo;
      var n := nodes[id];
      ghost var was, before := todo, kids;
      ghost var rootsBefore := roots;
      todo := todo - {id};
      if n.parent !in nodes {
        ListsPush(roots, nodes, Roots(nodes) - was, n);
        roots := roots + [n];
      } else {
        ListsPush(At(kids, n.parent), nodes, KidsOf(nodes, n.parent) - was, n);
        kids := kids[n.parent := At(kids, n.parent) + [n]];
      }
      StepGrouped(nodes, was, id, rootsBefore, before, roots, kids);
    }
    assert Roots(nodes) - todo == Roots(nodes);
    assert forall p :: KidsOf(nodes, p) - todo == KidsOf(nodes, p);
  }

  lemma NothingListed(nodes: Nodes)
    ensures GroupedUpTo(nodes, nodes.Keys, [], map[])
  {
  }

  lemma StepGrouped(nodes: Nodes, was: set<string>, id: string, roots0: seq<Span>, kids0: Kids, roots: seq<Span>, kids: Kids)
    requires id in was && was <= nodes.Keys && nodes[id].id == id && GroupedUpTo(nodes, was, roots0, kids0)
    requires var n := nodes[id];
      if n.parent !in nodes then kids == kids0 && Lists(roots, nodes, Roots(nodes) - was + {id})
      else roots == roots0 && kids == kids0[n.parent := At(kids, n.parent)]
           && Lists(At(kids, n.parent), nodes, KidsOf(nodes, n.parent) - was + {id})
    ensures GroupedUpTo(nodes, was - {id}, roots, kids)
  {
    hide Lists;
    var n, todo := nodes[id], was - {id};
    if n.parent !in nodes {
      assert Roots(nodes) - todo == Roots(nodes) - was + {id};
      forall p | p in nodes ensures Lists(At(kids, p), nodes, KidsOf(nodes, p) - todo) {
        assert KidsOf(nodes, p) - todo == KidsOf(nodes, p) - was;
      }
    } else {
      assert Roots(nodes) - todo == Roots(nodes) - was;
      forall p | p in nodes ensures Lists(At(kids, p), nodes, KidsOf(nodes, p) - todo) {
        if p == n.parent {
          assert KidsOf(nodes, p) - todo == KidsOf(nodes, p) - was + {id};
        } else {
          assert KidsOf(nodes, p) - todo == KidsOf(nodes, p) - was;
        }
      }
    }
  }

  /** Children come later than their parents. */
  ghost predicate Climbing(nodes: Nodes, kids: Kids, rank: map<string, nat>, bound: nat) {
    && (forall id :: id in nodes ==> id in rank && rank[id] < bound)
    && forall p, i :: p in nodes && 0 <= i < |At(kids, p)| ==>
         At(kids, p)[i].id in nodes && rank[p] < rank[At(kids, p)[i].id]
  }

  /** withKids; it ends because ranks climb along edges. */
  function WithKids(kids: Kids, n: Span, ghost nodes: Nodes, ghost rank: map<string, nat>, ghost bound: nat): Node
    requires Climbing(nodes, kids, rank, bound) && n.id in nodes
    decreases bound - rank[n.id], 0
  {
    Node(n, AllWithKids(kids, At(kids, n.id), nodes, rank, bound, rank[n.id] + 1))
  }

  function AllWithKids(kids: Kids, cs: seq<Span>, ghost nodes: Nodes, ghost rank: map<string, nat>, ghost bound: nat, ghost low: nat): (r: seq<Node>)
    requires Climbing(nodes, kids, rank, bound) && low <= bound
    requires forall i :: 0 <= i < |cs| ==> cs[i].id in nodes && low <= rank[cs[i].id]
    ensures |r| == |cs| && forall i :: 0 <= i < |r| ==> r[i].span == cs[i]
    decreases bound - low, 1 + |cs|
  {
    if cs == [] then []
    else [WithKids(kids, cs[0], nodes, rank, bound)] + AllWithKids(kids, cs[1..], nodes, rank, bound, low)
  }

  // ---- conservation -----------------------------------------------------------------------------------

  /** How often a span occurs in a forest. */
  function Count(x: string, ts: seq<Node>): nat {
    if ts == [] then 0
    else (if ts[0].span.id == x then 1 else 0) + Count(x, ts[0].children) + Count(x, ts[1..])
  }

  /** Every child hangs below its parent. */
  ghost predicate EdgesMatch(ts: seq<Node>) {
    ts == [] ||
    (&& (forall j :: 0 <= j < |ts[0].children| ==> ts[0].children[j].span.parent == ts[0].span.id)
     && EdgesMatch(ts[0].children) && EdgesMatch(ts[1..]))
  }

  /** Going up from x comes to a. */
  ghost predicate Reaches(nodes: Nodes, rank: map<string, nat>, x: string, a: string)
    requires Ordered(nodes, rank) && x in nodes
    decreases rank[x]
  {
    x == a || (nodes[x].parent in nodes && Reaches(nodes, rank, nodes[x].parent, a))
  }

  /** How many of the spans x lies under. */
  ghost function Hits(nodes: Nodes, rank: map<string, nat>, cs: seq<Span>, x: string): nat
    requires Ordered(nodes, rank) && x in nodes
  {
    if cs == [] then 0 else (if Reaches(nodes, rank, x, cs[0].id) then 1 else 0) + Hits(nodes, rank, cs[1..], x)
  }

  lemma {:induction false} HitsNone(nodes: Nodes, rank: map<string, nat>, cs: seq<Span>, x: string)
    requires Ordered(nodes, rank) && x in nodes
    requires forall i :: 0 <= i < |cs| ==> !Reaches(nodes, rank, x, cs[i].id)
    ensures Hits(nodes, rank, cs, x) == 0
  {
    hide Reaches;
    if cs != [] { HitsNone(nodes, rank, cs[1..], x); }
  }

  lemma {:induction false} HitsOne(nodes: Nodes, rank: map<string, nat>, cs: seq<Span>, x: string, k: nat)
    requires Ordered(nodes, rank) && x in nodes && k < |cs|
    requires forall i :: 0 <= i < |cs| ==> (Reaches(nodes, rank, x, cs[i].id) <==> i == k)
    ensures Hits(nodes, rank, cs, x) == 1
  {
    hide Reaches;
    if k == 0 {
      HitsNone(nodes, rank, cs[1..], x);
    } else {
      HitsOne(nodes, rank, cs[1..], x, k - 1);
    }
  }

  lemma {:induction false} ReachesDown(nodes: Nodes, rank: map<string, nat>, x: string, a: string)
    requires Ordered(nodes, rank) && x in nodes && Reaches(nodes, rank, x, a)
    ensures a in nodes && rank[a] <= rank[x]
    ensures x != a ==> rank[a] < rank[x]
    decreases rank[x]
  {
    if x != a { ReachesDown(nodes, rank, nodes[x].parent, a); }
  }

  lemma {:induction false} ReachesUp(nodes: Nodes, rank: map<string, nat>, x: string, a: string)
    requires Ordered(nodes, rank) && x in nodes && Reaches(nodes, rank, x, a) && a in nodes && nodes[a].parent in nodes
    ensures Reaches(nodes, rank, x, nodes[a].parent)
    decreases rank[x]
  {
    if x != a { ReachesUp(nodes, rank, nodes[x].parent, a); }
  }

  /** The step below a on the way up from x. */
  lemma {:induction false} Toward(nodes: Nodes, rank: map<string, nat>, x: string, a: string) returns (c: string)
    requires Ordered(nodes, rank) && x in nodes && a in nodes && x != a && Reaches(nodes, rank, x, a)
    ensures c in nodes && nodes[c].parent == a && Reaches(nodes, rank, x, c)
    decreases rank[x]
  {
    if nodes[x].parent == a {
      c := x;
    } else {
      c := Toward(nodes, rank, nodes[x].parent, a);
    }
  }

  /** The root above x. */
  lemma {:induction false} RootAbove(nodes: Nodes, rank: map<string, nat>, x: string) returns (r: string)
    requires Ordered(nodes, rank) && x in nodes
    ensures r in Roots(nodes) && Reaches(nodes, rank, x, r)
    decreases rank[x]
  {
    if nodes[x].parent in nodes {
      r := RootAbove(nodes, rank, nodes[x].parent);
    } else {
      r := x;
    }
  }

  /** x lies under at most one of two siblings, and at most one of two roots. */
  lemma {:induction false} OneBranch(nodes: Nodes, rank: map<string, nat>, x: string, c: string, d: string)
    requires Ordered(nodes, rank) && x in nodes && c in nodes && d in nodes
    requires Reaches(nodes, rank, x, c) && Reaches(nodes, rank, x, d)
    requires nodes[c].parent == nodes[d].parent || (nodes[c].parent !in nodes && nodes[d].parent !in nodes)
    ensures c == d
    decreases rank[x]
  {
    if x == c {
      if x != d { ReachesDown(nodes, rank, nodes[x].parent, d); }
    } else if x == d {
      ReachesDown(nodes, rank, nodes[x].parent, c);
    } else {
      OneBranch(nodes, rank, nodes[x].parent, c, d);
    }
  }

  lemma {:induction false} HitsOfKids(nodes: Nodes, rank: map<string, nat>, cs: seq<Span>, x: string, p: string)
    requires Ordered(nodes, rank) && x in nodes && p in nodes && Lists(cs, nodes, KidsOf(nodes, p))
    ensures Hits(nodes, rank, cs, x) == if x != p && Reaches(nodes, rank, x, p) then 1 else 0
    ensures x == p ==> Reaches(nodes, rank, x, p)
  {
    assert x == p ==> Reaches(nodes, rank, x, p);
    hide Reaches, Hits;
    if x != p && Reaches(nodes, rank, x, p) {
      var c := Toward(nodes, rank, x, p);
      assert c in KidsOf(nodes, p);
      var k :| 0 <= k < |cs| && cs[k].id == c;
      forall i | 0 <= i < |cs| ensures Reaches(nodes, rank, x, cs[i].id) <==> i == k {
        if Reaches(nodes, rank, x, cs[i].id) { OneBranch(nodes, rank, x, c, cs[i].id); }
      }
      HitsOne(nodes, rank, cs, x, k);
    } else {
      forall i | 0 <= i < |cs| ensures !Reaches(nodes, rank, x, cs[i].id) {
        assert cs[i].id in KidsOf(nodes, p);
        if Reaches(nodes, rank, x, cs[i].id) {
          ReachesUp(nodes, rank, x, cs[i].id);
          ReachesDown(nodes, rank, x, cs[i].id);
        }
      }
      HitsNone(nodes, rank, cs, x);
    }
  }

  lemma {:induction false} HitsOfRoots(nodes: Nodes, rank: map<string, nat>, roots: seq<Span>, x: string)
    requires Ordered(nodes, rank) && x in nodes && Lists(roots, nodes, Roots(nodes))
    ensures Hits(nodes, rank, roots, x) == 1
  {
    hide Reaches, Hits;
    var r := RootAbove(nodes, rank, x);
    var k :| 0 <= k < |roots| && roots[k].id == r;
    forall i | 0 <= i < |roots| ensures Reaches(nodes, rank, x, roots[i].id) <==> i == k {
      assert roots[i].id in Roots(nodes);
      if Reaches(nodes, rank, x, roots[i].id) { OneBranch(nodes, rank, x, r, roots[i].id); }
    }
    HitsOne(nodes, rank, roots, x, k);
  }

  lemma Unnest(kids: Kids, cs: seq<Span>, nodes: Nodes, rank: map<string, nat>, bound: nat, low: nat)
    requires Climbing(nodes, kids, rank, bound) && low <= bound && cs != []
    requires forall i :: 0 <= i < |cs| ==> cs[i].id in nodes && low <= rank[cs[i].id]
    ensures cs[0].id in rank && rank[cs[0].id] + 1 <= bound
    ensures forall i :: 0 <= i < |At(kids, cs[0].id)| ==>
      At(kids, cs[0].id)[i].id in nodes && rank[cs[0].id] + 1 <= rank[At(kids, cs[0].id)[i].id]
    ensures var ts := AllWithKids(kids, cs, nodes, rank, bound, low);
      && ts != [] && ts[0].span == cs[0] && ts[1..] == AllWithKids(kids, cs[1..], nodes, rank, bound, low)
      && ts[0].children == AllWithKids(kids, At(kids, cs[0].id), nodes, rank, bound, rank[cs[0].id] + 1)
  {
  }

  /** A nested forest shows each span as often as it lies under the listed ones. */
  lemma {:induction false} CountIsHits(nodes: Nodes, roots: seq<Span>, kids: Kids, rank: map<string, nat>, bound: nat, low: nat,
                                       cs: seq<Span>, x: string)
    requires Climbing(nodes, kids, rank, bound) && Ordered(nodes, rank) && Grouped(nodes, roots, kids) && low <= bound
    requires forall i :: 0 <= i < |cs| ==> cs[i].id in nodes && low <= rank[cs[i].id]
    ensures x in nodes ==> Count(x, AllWithKids(kids, cs, nodes, rank, bound, low)) == Hits(nodes, rank, cs, x)
    ensures x !in nodes ==> Count(x, AllWithKids(kids, cs, nodes, rank, bound, low)) == 0
    decreases bound - low, |cs|
  {
    hide Lists, Ordered, WithKids, Climbing, Reaches;
    if cs != [] {
      hide AllWithKids;
      var c := cs[0];
      var ts := AllWithKids(kids, cs, nodes, rank, bound, low);
      Unnest(kids, cs, nodes, rank, bound, low);
      CountIsHits(nodes, roots, kids, rank, bound, rank[c.id] + 1, At(kids, c.id), x);
      CountIsHits(nodes, roots, kids, rank, bound, low, cs[1..], x);
      if x in nodes {
        HitsOfKids(nodes, rank, At(kids, c.id), x, c.id);
      }
    }
  }

  lemma {:induction false} EdgesHold(nodes: Nodes, roots: seq<Span>, kids: Kids, rank: map<string, nat>, bound: nat, low: nat, cs: seq<Span>)
    requires Climbing(nodes, kids, rank, bound) && Grouped(nodes, roots, kids) && low <= bound
    requires forall i :: 0 <= i < |cs| ==> cs[i].id in nodes && low <= rank[cs[i].id]
    ensures EdgesMatch(AllWithKids(kids, cs, nodes, rank, bound, low))
    decreases bound - low, |cs|
  {
    hide Lists, WithKids, Climbing;
    if cs != [] {
      hide AllWithKids;
      var c := cs[0];
      Unnest(kids, cs, nodes, rank, bound, low);
      EdgesHold(nodes, roots, kids, rank, bound, rank[c.id] + 1, At(kids, c.id));
      EdgesHold(nodes, roots, kids, rank, bound, low, cs[1..]);
      KidsHaveParent(nodes, At(kids, c.id), c.id);
    }
  }

  lemma KidsHaveParent(nodes: Nodes, cs: seq<Span>, p: string)
    requires Lists(cs, nodes, KidsOf(nodes, p))
    ensures forall i :: 0 <= i < |cs| ==> cs[i].parent == p
  {
    forall i | 0 <= i < |cs| ensures cs[i].parent == p {
      assert cs[i].id in KidsOf(nodes, p);
    }
  }

  /** spanTreeFromExport: over any well-formed journal the forest of a turn shows every
      span that started in the turn exactly once and nothing else, hangs each child below
      its parent, and has as roots exactly the spans whose parent did not start in it. */
  method SpanTree(journal: seq<Ev>, turn: string) returns (roots: seq<Node>)
    requires WellFormed(journal)
    ensures forall x :: Count(x, roots) == (if x != "" && StartedIn(journal, turn, x) then 1 else 0)
    ensures EdgesMatch(roots)
    ensures forall x :: Tops(roots, x) <==> x in Roots(NodesOf(FilterByTurn(journal, turn)))
  {
    hide LastOf, StartRank, Lists, Count, Hits, EdgesMatch, NodesOf, FilterByTurn, WellFormed;
    FilterKeeps(journal, turn);
    var evs := FilterByTurn(journal, turn);
    WellFormedOrdered(evs);
    var nodes := CollectNodes(evs);
    ghost var rank := StartRank(evs);
    var tops, kids := Group(nodes);
    RanksClimb(nodes, tops, kids, rank, |evs|);
    RootsInNodes(nodes, tops);
    roots := AllWithKids(kids, tops, nodes, rank, |evs|, 0);
    forall x ensures Count(x, roots) == if x != "" && StartedIn(journal, turn, x) then 1 else 0 {
      CountIsHits(nodes, tops, kids, rank, |evs|, 0, tops, x);
      if x in nodes { HitsOfRoots(nodes, rank, tops, x); }
      StartedNodes(journal, turn, x);
    }
    EdgesHold(nodes, tops, kids, rank, |evs|, 0, tops);
    forall x ensures Tops(roots, x) <==> x in Roots(nodes) {
      RootListed(nodes, tops, roots, x);
    }
  }

  ghost predicate StartedIn(journal: seq<Ev>, turn: string, x: string) {
    exists i :: 0 <= i < |journal| && journal[i].kind.SpanStarted? && journal[i].id == x && (turn == "" || journal[i].turn == turn)
  }

  lemma StartedNodes(journal: seq<Ev>, turn: string, x: string)
    requires WellFormed(journal)
    ensures x in NodesOf(FilterByTurn(journal, turn)) <==> x != "" && StartedIn(journal, turn, x)
  {
    hide LastOf, WellFormed, FilterByTurn;
    var evs := FilterByTurn(journal, turn);
    FilterKeeps(journal, turn);
    Starts(evs, x);
    if x in NodesOf(evs) {
      var i :| 0 <= i < |evs| && evs[i].kind.SpanStarted? && evs[i].id == x;
      assert evs[i] in evs && evs[i] in journal;
    }
    if StartedIn(journal, turn, x) {
      var i :| 0 <= i < |journal| && journal[i].kind.SpanStarted? && journal[i].id == x && (turn == "" || journal[i].turn == turn);
      assert journal[i] in evs;
    }
  }

  lemma RanksClimb(nodes: Nodes, roots: seq<Span>, kids: Kids, rank: map<string, nat>, bound: nat)
    requires Ordered(nodes, rank) && Grouped(nodes, roots, kids)
    requires forall id :: id in rank ==> rank[id] < bound
    ensures Climbing(nodes, kids, rank, bound)
  {
    forall p, i | p in nodes && 0 <= i < |At(kids, p)|
      ensures At(kids, p)[i].id in nodes && rank[p] < rank[At(kids, p)[i].id]
    {
      assert Lists(At(kids, p), nodes, KidsOf(nodes, p));
      assert At(kids, p)[i].id in KidsOf(nodes, p);
    }
  }

  lemma RootsInNodes(nodes: Nodes, roots: seq<Span>)
    requires Lists(roots, nodes, Roots(nodes))
    ensures forall i :: 0 <= i < |roots| ==> roots[i].id in nodes
  {
  }

  ghost predicate Tops(roots: seq<Node>, x: string) {
    exists i :: 0 <= i < |roots| && roots[i].span.id == x
  }

  lemma RootListed(nodes: Nodes, tops: seq<Span>, roots: seq<Node>, x: string)
    requires Lists(tops, nodes, Roots(nodes))
    requires |roots| == |tops| && forall i :: 0 <= i < |roots| ==> roots[i].span == tops[i]
    ensures Tops(roots, x) <==> x in Roots(nodes)
  {
    if x in Roots(nodes) {
      var i :| 0 <= i < |tops| && tops[i].id == x;
      assert roots[i].span.id == x;
    }
  }
}
