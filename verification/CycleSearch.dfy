/** Depth-first search for a dependency cycle, with three colours. */
module CycleSearch {

  datatype Domain = Domain(name: string)

  datatype Colour = Unvisited | OnPath | Done

  datatype Search = NoCycle | Cycle(path: seq<Domain>)

  type Graph = map<Domain, seq<Domain>>

  /** A domain the graph does not list has no downstream. */
  function Targets(edges: Graph, domain: Domain): seq<Domain> {
    if domain in edges then edges[domain] else []
  }

  /** Each step follows an edge. */
  ghost predicate IsWalk(edges: Graph, p: seq<Domain>) {
    forall i :: 0 <= i < |p| - 1 ==> p[i + 1] in Targets(edges, p[i])
  }

  ghost predicate IsCycle(edges: Graph, c: seq<Domain>) {
    |c| >= 2 && c[0] == c[|c| - 1] && IsWalk(edges, c)
  }

  ghost predicate NoRepeats(p: seq<Domain>) {
    forall i, j :: 0 <= i < j < |p| ==> p[i] != p[j]
  }

  /** A cycle that meets no domain twice before it closes. */
  ghost predicate IsSimpleCycle(edges: Graph, c: seq<Domain>) {
    IsCycle(edges, c) && NoRepeats(c[..|c| - 1])
  }

  /** Every domain comes after everything downstream of it. */
  ghost predicate Downstream(edges: Graph, order: seq<Domain>) {
    forall i, t :: 0 <= i < |order| && t in Targets(edges, order[i]) ==> t in order[..i]
  }

  function Position(order: seq<Domain>, d: Domain): (i: nat)
    requires d in order
    ensures i < |order| && order[i] == d && d !in order[..i]
  {
    if order[0] == d then 0
    else
      assert order == [order[0]] + order[1..];
      var i := 1 + Position(order[1..], d);
      assert order[..i] == [order[0]] + order[1..][..i - 1];
      i
  }

  /** Along a walk through a downstream order, positions fall at every step. */
  lemma {:induction false} PositionsFall(edges: Graph, order: seq<Domain>, walk: seq<Domain>, k: nat)
    requires Downstream(edges, order) && IsWalk(edges, walk) && k < |walk|
    requires walk[0] in order
    ensures walk[k] in order && Position(order, walk[k]) <= Position(order, walk[0]) - k
  {
    if k > 0 {
      PositionsFall(edges, order, walk, k - 1);
      var i := Position(order, walk[k - 1]);
      assert walk[k - 1 + 1] in Targets(edges, order[i]);
      assert walk[k] in order[..i];
      var j :| 0 <= j < i && order[..i][j] == walk[k];
      assert order[j] == walk[k];
    }
  }

  /** A graph whose every domain stands in one downstream order has no cycle of any length. */
  lemma DownstreamOrderExcludesCycles(edges: Graph, order: seq<Domain>, c: seq<Domain>)
    requires Downstream(edges, order)
    requires forall d :: d in edges ==> d in order
    ensures !IsCycle(edges, c)
  {
    if IsCycle(edges, c) {
      assert c[0 + 1] in Targets(edges, c[0]);
      PositionsFall(edges, order, c, |c| - 1);
      assert false;
    }
  }

  function IndexOf(p: seq<Domain>, d: Domain): (i: nat)
    requires d in p
    ensures i < |p| && p[i] == d
  {
    Position(p, d)
  }

  /** The path from the domain met again, closed by it. */
  function CycleThrough(path: seq<Domain>, target: Domain): seq<Domain>
    requires target in path
  {
    path[IndexOf(path, target)..] + [target]
  }

  /** The tail of the path from the domain met again, closed by that domain, is a cycle. */
  lemma ClosingTheCycle(edges: Graph, path: seq<Domain>, target: Domain)
    requires IsWalk(edges, path) && NoRepeats(path) && target in path
    requires target in Targets(edges, path[|path| - 1])
    ensures IsSimpleCycle(edges, CycleThrough(path, target))
  {
    var k := IndexOf(path, target);
    var c := path[k..] + [target];
    assert c[..|c| - 1] == path[k..];
    forall i | 0 <= i < |c| - 1 ensures c[i + 1] in Targets(edges, c[i]) {
      assert c[i] == path[k + i];
      if i + 1 < |c| - 1 { assert c[i + 1] == path[k + i + 1]; }
    }
  }

  class CycleSearch {
    const edges: Graph
    var colour: map<Domain, Colour>
    var path: seq<Domain>
    /** The domains marked done, in the order they were. */
    ghost var finished: seq<Domain>

    constructor (edges: Graph)
      ensures this.edges == edges && colour == map[] && path == [] && finished == []
      ensures Valid()
    {
      this.edges := edges;
      colour := map[];
      path := [];
      finished := [];
    }

    function ColourOf(d: Domain): Colour
      reads this`colour
    {
      if d in colour then colour[d] else Unvisited
    }

    ghost function Finished(): set<Domain>
      reads this`colour
    {
      DoneIn(colour)
    }

    ghost predicate Valid()
      reads this
    {
      Consistent(edges, colour, path, finished)
    }

    /** How many of the graph's listed domains the search has yet to reach. */
    ghost function Unseen(): nat
      reads this
    {
      |edges.Keys - colour.Keys|
    }

    method Walk(domain: Domain) returns (found: Search)
      requires Valid() && ColourOf(domain) == Unvisited
      requires path != [] ==> domain in Targets(edges, path[|path| - 1])
      modifies this`colour, this`path, this`finished
      ensures found.Cycle? ==> IsSimpleCycle(edges, found.path)
      ensures found.NoCycle? ==>
                && Valid() && path == old(path) && domain in Finished()
                && old(Finished()) <= Finished() && Unseen() <= old(Unseen())
      decreases Unseen(), 1
    {
      Enter(domain);
      found := VisitAll(domain);
      if found.NoCycle? {
        Finish(domain, old(path));
      }
    }

    /** Colour the domain as being on the path, and put it there. */
    method Enter(domain: Domain)
      requires Valid() && ColourOf(domain) == Unvisited
      requires path != [] ==> domain in Targets(edges, path[|path| - 1])
      modifies this`colour, this`path
      ensures Valid() && path == old(path) + [domain] && Finished() == old(Finished())
      ensures Unseen() <= old(Unseen()) && (domain in edges ==> Unseen() < old(Unseen()))
    {
      var coloured, longer := colour[domain := OnPath], path + [domain];
      Entering(edges, colour, path, finished, domain);
      EnteringIsProgress(edges.Keys, colour, domain);
      colour, path := coloured, longer;
      assert colour == coloured && path == longer && Finished() == DoneIn(coloured);
    }

    /** Colour the last domain on the path as done, and take it off. */
    method Finish(domain: Domain, ghost rest: seq<Domain>)
      requires Valid() && path == rest + [domain]
      requires AllIn(Targets(edges, domain), Finished())
      modifies this`colour, this`path, this`finished
      ensures Valid() && path == rest && Finished() == old(Finished()) + {domain}
      ensures Unseen() == old(Unseen())
    {
      Finishing(edges, colour, rest, finished, domain);
      colour := colour[domain := Done];
      path := path[..|path| - 1];
      finished := finished + [domain];
    }

    /** Everything downstream of the last domain on the path, in the order listed. */
    method VisitAll(domain: Domain) returns (found: Search)
      requires Valid() && path != [] && path[|path| - 1] == domain
      modifies this`colour, this`path, this`finished
      ensures found.Cycle? ==> IsSimpleCycle(edges, found.path)
      ensures found.NoCycle? ==>
                && Valid() && path == old(path) && AllIn(Targets(edges, domain), Finished())
                && old(Finished()) <= Finished() && Unseen() <= old(Unseen())
      decreases Unseen(), if Targets(edges, domain) == [] then 0 else 3
    {
      var targets := Targets(edges, domain);
      for i := 0 to |targets|
        invariant Valid() && path == old(path)
        invariant old(Finished()) <= Finished() && Unseen() <= old(Unseen())
        invariant AllIn(targets[..i], Finished())
      {
        found := Visit(targets[i]);
        if found.Cycle? {
          return;
        }
        AllInNext(targets, i, Finished());
      }
      AllInAll(targets, Finished());
      found := NoCycle;
    }

    /** One downstream domain of the last domain on the path. */
    method Visit(target: Domain) returns (found: Search)
      requires Valid() && path != [] && target in Targets(edges, path[|path| - 1])
      modifies this`colour, this`path, this`finished
      ensures found.Cycle? ==> IsSimpleCycle(edges, found.path)
      ensures found.NoCycle? ==>
                && Valid() && path == old(path) && target in Finished()
                && old(Finished()) <= Finished() && Unseen() <= old(Unseen())
      decreases Unseen(), 2
    {
      var state := ColourOf(target);
      if state == OnPath {
        ClosingTheCycle(edges, path, target);
        return Cycle(CycleThrough(path, target));
      }
      found := NoCycle;
      if state == Unvisited {
        found := Walk(target);
      }
    }
  }

  ghost function DoneIn(colour: map<Domain, Colour>): set<Domain> {
    set d | d in colour && colour[d] == Done
  }

  ghost predicate AllIn(targets: seq<Domain>, done: set<Domain>) {
    forall k :: 0 <= k < |targets| ==> targets[k] in done
  }

  lemma AllInNext(targets: seq<Domain>, i: nat, done: set<Domain>)
    requires i < |targets| && AllIn(targets[..i], done) && targets[i] in done
    ensures AllIn(targets[..i + 1], done)
  {
    assert targets[..i + 1] == targets[..i] + [targets[i]];
  }

  lemma AllInAll(targets: seq<Domain>, done: set<Domain>)
    requires AllIn(targets[..|targets|], done)
    ensures AllIn(targets, done)
  {
    assert targets[..|targets|] == targets;
  }

  /** What the colours say about the path and about the domains already finished. */
  ghost predicate Consistent(edges: Graph, colour: map<Domain, Colour>, path: seq<Domain>, finished: seq<Domain>) {
    && (forall d :: d in colour ==> colour[d] == OnPath || colour[d] == Done)
    && (forall d :: d in colour && colour[d] == OnPath ==> d in path)
    && (forall d :: d in colour && colour[d] == Done ==> d in finished)
    && (forall i :: 0 <= i < |path| ==> path[i] in colour && colour[path[i]] == OnPath)
    && (forall i :: 0 <= i < |finished| ==> finished[i] in colour && colour[finished[i]] == Done)
    && IsWalk(edges, path)
    && NoRepeats(path)
    && Downstream(edges, finished)
  }

  lemma Entering(edges: Graph, colour: map<Domain, Colour>, path: seq<Domain>, finished: seq<Domain>, domain: Domain)
    requires Consistent(edges, colour, path, finished) && domain !in colour
    requires path != [] ==> domain in Targets(edges, path[|path| - 1])
    ensures Consistent(edges, colour[domain := OnPath], path + [domain], finished)
    ensures DoneIn(colour[domain := OnPath]) == DoneIn(colour)
  {
    var longer := path + [domain];
    assert longer[|path|] == domain;
    assert domain !in path && domain !in finished;
    assert IsWalk(edges, longer) by {
      forall i | 0 <= i < |longer| - 1 ensures longer[i + 1] in Targets(edges, longer[i]) {
        assert longer[i] == path[i];
        if i + 1 < |path| { assert path[i + 1] in Targets(edges, path[i]); }
      }
    }
  }

  lemma EnteringIsProgress(domains: set<Domain>, colour: map<Domain, Colour>, domain: Domain)
    requires domain !in colour
    ensures |domains - colour[domain := OnPath].Keys| <= |domains - colour.Keys|
    ensures domain in domains ==> |domains - colour[domain := OnPath].Keys| < |domains - colour.Keys|
  {
    var before, after := domains - colour.Keys, domains - colour[domain := OnPath].Keys;
    assert after == before - {domain};
  }

  /** A finished domain stands after everything downstream of it. */
  lemma FinishedInOrder(edges: Graph, finished: seq<Domain>, domain: Domain)
    requires Downstream(edges, finished) && forall t :: t in Targets(edges, domain) ==> t in finished
    ensures Downstream(edges, finished + [domain])
  {
    var order := finished + [domain];
    forall i, t | 0 <= i < |order| && t in Targets(edges, order[i]) ensures t in order[..i] {
      if i < |finished| {
        assert order[..i] == finished[..i];
      } else {
        assert order[..i] == finished;
      }
    }
  }

  lemma ShorterWalk(edges: Graph, rest: seq<Domain>, domain: Domain)
    requires IsWalk(edges, rest + [domain]) && NoRepeats(rest + [domain])
    ensures IsWalk(edges, rest) && NoRepeats(rest) && domain !in rest
  {
    var path := rest + [domain];
    assert path[|rest|] == domain;
    forall i | 0 <= i < |rest| ensures rest[i] == path[i] && rest[i] != domain {}
    forall i | 0 <= i < |rest| - 1 ensures rest[i + 1] in Targets(edges, rest[i]) {
      assert path[i + 1] in Targets(edges, path[i]);
    }
  }

  lemma Finishing(edges: Graph, colour: map<Domain, Colour>, rest: seq<Domain>, finished: seq<Domain>, domain: Domain)
    requires Consistent(edges, colour, rest + [domain], finished)
    requires AllIn(Targets(edges, domain), DoneIn(colour))
    ensures Consistent(edges, colour[domain := Done], rest, finished + [domain])
    ensures (rest + [domain])[..|rest|] == rest
    ensures colour[domain := Done].Keys == colour.Keys
    ensures DoneIn(colour[domain := Done]) == DoneIn(colour) + {domain}
  {
    hide Downstream, IsWalk, NoRepeats, Targets;
    var path, order := rest + [domain], finished + [domain];
    assert path[|rest|] == domain;
    assert forall i :: 0 <= i < |rest| ==> rest[i] == path[i];
    assert forall d :: d in path <==> d in rest || d == domain;
    assert forall d :: d in order <==> d in finished || d == domain;
    ShorterWalk(edges, rest, domain);
    FinishedInOrder(edges, finished, domain);
  }

  /** `domains` lists the keys of the graph in their own order. */
  method FindCycle(edges: Graph, domains: seq<Domain>) returns (found: Search)
    requires forall d :: d in domains <==> d in edges
    ensures found.Cycle? ==> IsSimpleCycle(edges, found.path)
    ensures found.NoCycle? <==> forall c :: !IsCycle(edges, c)
  {
    var search := new CycleSearch(edges);
    for i := 0 to |domains|
      invariant search.edges == edges && search.Valid() && search.path == []
      invariant fresh(search)
      invariant forall d :: d in domains[..i] ==> d in search.Finished()
    {
      if search.ColourOf(domains[i]) == Unvisited {
        found := search.Walk(domains[i]);
        if found.Cycle? {
          return;
        }
      }
      AllInNext(domains, i, search.Finished());
    }
    AllInAll(domains, search.Finished());
    assert forall d :: d in edges ==> d in search.finished;
    forall c ensures !IsCycle(edges, c) {
      DownstreamOrderExcludesCycles(edges, search.finished, c);
    }
    found := NoCycle;
  }
}
