/** Bundling: the modules an entry depends on, directly or not, are visited depth
    first, dependencies before dependents, and each one's source is added once. */
module Bundles {
  import opened Graphs
  import opened DynamicBuffers
  import opened Mappings
  import opened Remapping
  import opened SourceMapBuilders
  import opened Concatenations

  datatype Module = Module(source: Source, dependencies: seq<Id>)

  type Program = map<Id, Module>

  /** Dependencies are modules too, and every source is as its constructor left it. */
  ghost predicate Loaded(p: Program)
  {
    forall u :: u in p ==> Counted(p[u].source) && forall d :: d in p[u].dependencies ==> d in p
  }

  ghost function Edges(p: Program): Graph
  {
    set u, d | u in p && d in p[u].dependencies :: (u, d)
  }

  /** x is m or a dependency of m, direct or not. */
  ghost predicate Depends(p: Program, m: Id, x: Id)
  {
    x == m || Reaches(Edges(p), m, x)
  }

  // ------------------------------------------------------------- the walk

  /** A dependency is added before its dependent, unless the two are on a cycle. */
  ghost predicate Placed(p: Program, order: seq<Id>)
  {
    forall k, d :: 0 <= k < |order| && order[k] in p && d in p[order[k]].dependencies ==>
      d in order[..k] || Reaches(Edges(p), d, order[k])
  }

  /** `order` is what has been added; the other visited modules are being visited. */
  ghost predicate Walked(p: Program, visited: set<Id>, order: seq<Id>)
  {
    && NoRepeats(order) && Placed(p, order) && visited <= p.Keys
    && (forall x :: x in order ==> x in visited)
    && (forall x, d :: x in order && x in p && d in p[x].dependencies ==> d in visited)
  }

  /** All modules being visited lead to m. */
  ghost predicate OnTheWay(p: Program, visited: set<Id>, order: seq<Id>, m: Id)
  {
    forall g :: g in visited && g !in order ==> Reaches(Edges(p), g, m)
  }

  /** What visiting m has done. */
  ghost predicate Extended(p: Program, m: Id, visited: set<Id>, order: seq<Id>, visited': set<Id>, order': seq<Id>)
  {
    && Walked(p, visited', order') && visited + {m} <= visited' && order <= order'
    && (forall x :: x in visited' ==> x in order' || x in visited)
    && (forall x :: x in order' && x !in order ==> x !in visited && (x == m || Reaches(Edges(p), m, x)))
  }

  lemma VisitedAlready(p: Program, m: Id, visited: set<Id>, order: seq<Id>)
    requires Walked(p, visited, order) && m in visited
    ensures Extended(p, m, visited, order, visited, order)
  {
  }

  /** Half way: the first k dependencies of m have been visited. */
  ghost predicate Descending(p: Program, m: Id, k: int, visited: set<Id>, order: seq<Id>, visited': set<Id>,
      order': seq<Id>)
    requires m in p
  {
    && Walked(p, visited', order') && visited + {m} <= visited' && order <= order'
    && 0 <= k <= |p[m].dependencies| && (forall i :: 0 <= i < k ==> p[m].dependencies[i] in visited')
    && (forall x :: x in visited' ==> x in order' || x in visited || x == m)
    && (forall x :: x in order' && x !in order ==> x !in visited && x != m && Reaches(Edges(p), m, x))
    && m !in order'
  }

  lemma DescentStarts(p: Program, m: Id, visited: set<Id>, order: seq<Id>)
    requires Walked(p, visited, order) && m in p && m !in visited
    ensures Descending(p, m, 0, visited, order, visited + {m}, order)
  {
  }

  /** The next dependency may be visited. */
  lemma DescentReady(p: Program, m: Id, k: int, visited: set<Id>, order: seq<Id>, visited': set<Id>, order': seq<Id>)
    requires Loaded(p) && m in p && m !in visited && OnTheWay(p, visited, order, m)
    requires Descending(p, m, k, visited, order, visited', order') && k < |p[m].dependencies|
    ensures p[m].dependencies[k] in p && Reaches(Edges(p), m, p[m].dependencies[k])
    ensures Walked(p, visited', order') && visited + {m} <= visited' <= p.Keys
    ensures OnTheWay(p, visited', order', p[m].dependencies[k])
  {
    var d := p[m].dependencies[k];
    assert (m, d) in Edges(p);
    EdgeReaches(Edges(p), m, d);
    forall g | g in visited' && g !in order' ensures Reaches(Edges(p), g, d) {
      if g != m {
        assert g !in order;
        ReachesTrans(Edges(p), g, m, d);
      }
    }
  }

  lemma DescentStep(p: Program, m: Id, k: int, visited: set<Id>, order: seq<Id>,
                    visited': set<Id>, order': seq<Id>, visited'': set<Id>, order'': seq<Id>)
    requires Loaded(p) && m in p && m !in visited && OnTheWay(p, visited, order, m)
    requires Descending(p, m, k, visited, order, visited', order') && k < |p[m].dependencies|
    requires Extended(p, p[m].dependencies[k], visited', order', visited'', order'')
    ensures Descending(p, m, k + 1, visited, order, visited'', order'')
  {
    hide Walked;
    var d := p[m].dependencies[k];
    DescentReady(p, m, k, visited, order, visited', order');
    forall x | x in order'' && x !in order
      ensures x !in visited && x != m && Reaches(Edges(p), m, x)
    {
      if x !in order' && x != d {
        ReachesTrans(Edges(p), m, d, x);
      }
    }
  }

  /** All dependencies visited, the module itself is added. */
  lemma DescentEnds(p: Program, m: Id, visited: set<Id>, order: seq<Id>, visited': set<Id>, order': seq<Id>)
    requires Loaded(p) && m in p && m !in visited && OnTheWay(p, visited, order, m) && Walked(p, visited, order)
    requires Descending(p, m, |p[m].dependencies|, visited, order, visited', order')
    ensures Extended(p, m, visited, order, visited', order' + [m])
  {
    var last := order' + [m];
    forall k, d | 0 <= k < |last| && last[k] in p && d in p[last[k]].dependencies
      ensures d in last[..k] || Reaches(Edges(p), d, last[k])
    {
      if k < |order'| {
        assert last[..k] == order'[..k] && last[k] == order'[k];
      } else {
        assert last[..k] == order';
        assert (m, d) in Edges(p);
        EdgeReaches(Edges(p), m, d);
        if d !in order' {
          assert d in visited';
          assert d == m || (d in visited && d !in order);
        }
      }
    }
    assert Placed(p, last);
  }

  lemma {:induction false} FollowPath(p: Program, visited: set<Id>, order: seq<Id>, path: seq<Id>)
    requires Walked(p, visited, order) && (forall x :: x in visited ==> x in order)
    requires IsPath(Edges(p), path) && path[0] in order
    ensures path[|path| - 1] in order
    decreases |path|
  {
    if |path| > 1 {
      assert (path[0], path[1]) in Edges(p);
      assert path[1] in visited;
      FollowPath(p, visited, order, path[1..]);
    }
  }

  /** A module is in the bundle exactly when the entry depends on it, and once. */
  lemma WalkIsExact(p: Program, entry: Id, visited: set<Id>, order: seq<Id>)
    requires Extended(p, entry, {}, [], visited, order)
    ensures NoRepeats(order) && Placed(p, order) && forall x :: x in order <==> Depends(p, entry, x)
  {
    forall x ensures x in order <==> Depends(p, entry, x) {
      if x == entry {
        assert x in visited;
      } else if Reaches(Edges(p), entry, x) {
        var path :| Connects(Edges(p), entry, x, path);
        FollowPath(p, visited, order, path);
      }
    }
  }

  /** Without cycles, every dependency comes before its dependents. */
  lemma Topological(p: Program, order: seq<Id>, k: int, d: Id)
    requires Placed(p, order) && Acyclic(Edges(p))
    requires 0 <= k < |order| && order[k] in p && d in p[order[k]].dependencies
    ensures d in order[..k]
  {
    if Reaches(Edges(p), d, order[k]) {
      assert (order[k], d) in Edges(p);
      EdgeReaches(Edges(p), order[k], d);
      ReachesTrans(Edges(p), d, order[k], d);
    }
  }

  // ------------------------------------------- the order of the dependencies

  /** x is, or is a dependency of, one of the first k dependencies of m. */
  ghost predicate Among(p: Program, m: Id, k: int, x: Id)
    requires m in p
  {
    exists i :: 0 <= i < k && i < |p[m].dependencies| && Depends(p, p[m].dependencies[i], x)
  }

  /** The modules in `order` up to cuts[k] are those up to cuts[0] and all that the
      first k dependencies of m depend on. */
  ghost predicate InTurn(p: Program, m: Id, order: seq<Id>, cuts: seq<int>)
    requires m in p
  {
    && cuts != [] && (forall k :: 0 <= k < |cuts| ==> 0 <= cuts[k] <= |order|)
    && (forall j, k :: 0 <= j <= k < |cuts| ==> cuts[j] <= cuts[k])
    && (forall k, x :: 0 <= k < |cuts| ==>
          (x in Before(order, cuts[k]) <==> x in Before(order, cuts[0]) || Among(p, m, k, x)))
  }

  function Before(order: seq<Id>, n: int): seq<Id>
  {
    if 0 <= n <= |order| then order[..n] else order
  }

  /** When the module at place q was added, its dependencies had been dealt with one
      after the other, from place `start` on. */
  ghost predicate Descended(p: Program, order: seq<Id>, q: int, start: int)
  {
    && 0 <= q < |order| && order[q] in p
    && exists cuts :: |cuts| == |p[order[q]].dependencies| + 1 && cuts[0] == start && cuts[|cuts| - 1] == q
                      && InTurn(p, order[q], order, cuts)
  }

  ghost predicate RankedAt(p: Program, order: seq<Id>, q: int)
  {
    exists start :: Descended(p, order, q, start)
  }

  ghost predicate Ranked(p: Program, order: seq<Id>)
  {
    forall q :: 0 <= q < |order| ==> RankedAt(p, order, q)
  }

  lemma NoneRanked(p: Program)
    ensures Ranked(p, [])
  {
  }

  lemma DescendedStays(p: Program, order: seq<Id>, q: int, start: int, more: seq<Id>)
    requires Descended(p, order, q, start)
    ensures Descended(p, order + more, q, start)
  {
    hide Depends;
    var cuts :| |cuts| == |p[order[q]].dependencies| + 1 && cuts[0] == start && cuts[|cuts| - 1] == q
                && InTurn(p, order[q], order, cuts);
    forall k | 0 <= k < |cuts| ensures Before(order + more, cuts[k]) == Before(order, cuts[k]) {
      assert (order + more)[..cuts[k]] == order[..cuts[k]];
    }
    assert InTurn(p, order[q], order + more, cuts);
    assert (order + more)[q] == order[q];
  }

  lemma RankedStays(p: Program, order: seq<Id>, m: Id, start: int)
    requires Ranked(p, order) && Descended(p, order + [m], |order|, start)
    ensures Ranked(p, order + [m])
  {
    hide Descended;
    forall q | 0 <= q < |order + [m]| ensures RankedAt(p, order + [m], q) {
      if q < |order| {
        assert RankedAt(p, order, q);
        var s :| Descended(p, order, q, s);
        DescendedStays(p, order, q, s, [m]);
      }
    }
  }

  /** Without cycles, a visit leaves nothing out that the module depends on. */
  lemma {:induction false} PathAdded(p: Program, m: Id, visited: set<Id>, order: seq<Id>, visited': set<Id>,
                                     order': seq<Id>, path: seq<Id>)
    requires Acyclic(Edges(p)) && OnTheWay(p, visited, order, m) && Extended(p, m, visited, order, visited', order')
    requires IsPath(Edges(p), path) && path[0] in order' && Depends(p, m, path[0])
    ensures path[|path| - 1] in order'
    decreases |path|
  {
    if |path| > 1 {
      assert (path[0], path[1]) in Edges(p);
      EdgeReaches(Edges(p), path[0], path[1]);
      if path[0] != m { ReachesTrans(Edges(p), m, path[0], path[1]); }
      if path[1] !in order' {
        assert path[1] in visited' && path[1] in visited && path[1] !in order;
        ReachesTrans(Edges(p), m, path[1], m);
      }
      PathAdded(p, m, visited, order, visited', order', path[1..]);
    }
  }

  lemma AllAdded(p: Program, m: Id, visited: set<Id>, order: seq<Id>, visited': set<Id>, order': seq<Id>, x: Id)
    requires Acyclic(Edges(p)) && OnTheWay(p, visited, order, m) && Extended(p, m, visited, order, visited', order')
    ensures x in order' <==> x in order || Depends(p, m, x)
  {
    assert m in visited';
    if x != m && Reaches(Edges(p), m, x) {
      var path :| Connects(Edges(p), m, x, path);
      PathAdded(p, m, visited, order, visited', order', path);
    }
  }

  lemma TurnsStart(p: Program, m: Id, order: seq<Id>)
    requires m in p
    ensures InTurn(p, m, order, [|order|])
  {
  }

  lemma NextTurn(p: Program, m: Id, order: seq<Id>, cuts: seq<int>, order': seq<Id>)
    requires m in p && InTurn(p, m, order, cuts) && cuts[|cuts| - 1] == |order| && order <= order'
    requires |cuts| <= |p[m].dependencies|
    requires forall x :: x in order' <==> x in order || Depends(p, p[m].dependencies[|cuts| - 1], x)
    ensures InTurn(p, m, order', cuts + [|order'|])
  {
    hide Depends;
    var cuts', n := cuts + [|order'|], |cuts|;
    forall k | 0 <= k < n ensures Before(order', cuts'[k]) == Before(order, cuts[k]) {
      assert order'[..cuts[k]] == order[..cuts[k]];
    }
    assert Before(order', |order'|) == order' && Before(order, |order|) == order;
    forall x ensures x in order' <==> x in Before(order', cuts'[0]) || Among(p, m, n, x) {
      AmongNext(p, m, n - 1, x);
      assert x in Before(order, cuts[n - 1]) <==> x in Before(order, cuts[0]) || Among(p, m, n - 1, x);
    }
    forall k, x | 0 <= k < |cuts'|
      ensures x in Before(order', cuts'[k]) <==> x in Before(order', cuts'[0]) || Among(p, m, k, x)
    {
      if k < n {
        assert x in Before(order, cuts[k]) <==> x in Before(order, cuts[0]) || Among(p, m, k, x);
      }
    }
  }

  lemma AmongNext(p: Program, m: Id, k: int, x: Id)
    requires m in p && 0 <= k < |p[m].dependencies|
    ensures Among(p, m, k + 1, x) <==> Among(p, m, k, x) || Depends(p, p[m].dependencies[k], x)
  {
    hide Depends;
    if Among(p, m, k, x) {
      var i :| 0 <= i < k && i < |p[m].dependencies| && Depends(p, p[m].dependencies[i], x);
      assert i < k + 1;
    }
  }

  /** Half way through the dependencies of m. */
  ghost predicate Turning(p: Program, m: Id, order0: seq<Id>, order: seq<Id>, cuts: seq<int>)
    requires m in p
  {
    && InTurn(p, m, order, cuts) && cuts[|cuts| - 1] == |order| && cuts[0] == |order0|
    && (Ranked(p, order0) ==> Ranked(p, order))
  }

  lemma Turned(p: Program, m: Id, k: int, order0: seq<Id>, visited1: set<Id>, order1: seq<Id>,
               visited: set<Id>, order: seq<Id>, cuts: seq<int>)
    requires m in p && Turning(p, m, order0, order1, cuts) && Acyclic(Edges(p)) && |cuts| == k + 1
    requires 0 <= k < |p[m].dependencies| && OnTheWay(p, visited1, order1, p[m].dependencies[k])
    requires Extended(p, p[m].dependencies[k], visited1, order1, visited, order)
    requires Ranked(p, order1) ==> Ranked(p, order)
    ensures Turning(p, m, order0, order, cuts + [|order|])
  {
    hide Ranked, Acyclic, OnTheWay, Walked, InTurn, Depends;
    forall x ensures x in order <==> x in order1 || Depends(p, p[m].dependencies[k], x) {
      AllAdded(p, p[m].dependencies[k], visited1, order1, visited, order, x);
    }
    NextTurn(p, m, order1, cuts, order);
  }

  lemma TurnsDone(p: Program, m: Id, order0: seq<Id>, order: seq<Id>, cuts: seq<int>)
    requires m in p && Turning(p, m, order0, order, cuts) && |cuts| == |p[m].dependencies| + 1
    ensures Descended(p, order + [m], |order|, |order0|)
    ensures Ranked(p, order0) ==> Ranked(p, order + [m])
  {
    hide Ranked, Descended, InTurn;
    TurnsEnd(p, m, order, cuts);
    if Ranked(p, order0) { RankedStays(p, order, m, |order0|); }
  }

  lemma MyOwn(p: Program, m: Id)
    ensures Depends(p, m, m)
  {
  }

  /** All turns taken, m is added. */
  lemma TurnsEnd(p: Program, m: Id, order: seq<Id>, cuts: seq<int>)
    requires m in p && InTurn(p, m, order, cuts) && cuts[|cuts| - 1] == |order|
    requires |cuts| == |p[m].dependencies| + 1
    ensures Descended(p, order + [m], |order|, cuts[0])
  {
    hide Depends;
    forall k | 0 <= k < |cuts| ensures Before(order + [m], cuts[k]) == Before(order, cuts[k]) {
      assert (order + [m])[..cuts[k]] == order[..cuts[k]];
    }
    assert InTurn(p, m, order + [m], cuts);
  }

  // ------------------------------------------------------------- the bundler

  ghost predicate Within(p: Program, order: seq<Id>)
  {
    forall k :: 0 <= k < |order| ==> order[k] in p
  }

  /** The sources of the modules in `order`. */
  ghost function Sources(p: Program, order: seq<Id>): (parts: seq<Part>)
    requires Within(p, order)
    ensures |parts| == |order|
  {
    seq(|order|, k requires 0 <= k < |order| => Whole(p[order[k]].source))
  }

  lemma SourcesAppend(p: Program, order: seq<Id>, m: Id)
    requires Within(p, order) && m in p
    ensures Within(p, order + [m]) && Sources(p, order + [m]) == Sources(p, order) + [Whole(p[m].source)]
  {
  }

  ghost predicate Legible(p: Program, x: Id)
  {
    x in p && AllAccepted(p[x].source.mappings)
  }

  lemma DependsVia(p: Program, m: Id, d: Id, x: Id)
    requires Reaches(Edges(p), m, d) && Depends(p, d, x)
    ensures Depends(p, m, x)
  {
    if x != d { ReachesTrans(Edges(p), m, d, x); }
  }

  /** The variables of `bundleWithDependencies`. */
  class Bundler {
    const builder: SourceMapBuilder
    var visited: set<Id>
    ghost var order: seq<Id>

    /** The builder holds the sources in `order`. */
    ghost predicate Holds(p: Program)
      reads this`order, builder, builder.outputBuffer, builder.outputBuffer.buffer, builder.mappings,
        builder.mappings.buffer
    {
      builder.Valid() && Within(p, order) && Built(Sources(p, order), ProductOf(builder))
    }

    constructor (p: Program)
      ensures Holds(p) && Walked(p, visited, order) && visited == {} && order == []
      ensures fresh(builder) && fresh(builder.outputBuffer) && fresh(builder.mappings)
      ensures fresh(builder.outputBuffer.buffer) && fresh(builder.mappings.buffer)
    {
      hide Built;
      builder := new SourceMapBuilder();
      visited := {};
      order := [];
      new;
      NothingBuilt();
      assert Sources(p, []) == [];
    }

    /** The builder's `addSource` for a module. */
    method Append(p: Program, m: Id) returns (ok: bool)
      requires Holds(p) && Loaded(p) && m in p
      modifies `order, builder, builder.outputBuffer, builder.outputBuffer.buffer, builder.mappings,
        builder.mappings.buffer
      ensures builder.outputBuffer.buffer == old(builder.outputBuffer.buffer) || fresh(builder.outputBuffer.buffer)
      ensures builder.mappings.buffer == old(builder.mappings.buffer) || fresh(builder.mappings.buffer)
      ensures ok <==> Legible(p, m)
      ensures ok ==> Holds(p) && order == old(order) + [m]
    {
      hide Built, SourceMapBuilder.Valid, AllAccepted;
      SourcesAppend(p, order, m);
      ok := AddPart(builder, Whole(p[m].source), Sources(p, order));
      order := order + [m];
    }

    /** `visit`. Not ok is the exception for unreadable mappings. */
    method Visit(p: Program, m: Id) returns (ok: bool)
      requires Loaded(p) && m in p && Holds(p) && Walked(p, visited, order) && OnTheWay(p, visited, order, m)
      modifies this, builder, builder.outputBuffer, builder.outputBuffer.buffer
      modifies builder.mappings, builder.mappings.buffer
      ensures builder.outputBuffer.buffer == old(builder.outputBuffer.buffer) || fresh(builder.outputBuffer.buffer)
      ensures builder.mappings.buffer == old(builder.mappings.buffer) || fresh(builder.mappings.buffer)
      ensures ok ==> Holds(p) && Extended(p, m, old(visited), old(order), visited, order)
      ensures ok ==> forall x :: x in order && x !in old(order) ==> Legible(p, x)
      ensures !ok ==> exists x :: Depends(p, m, x) && !Legible(p, x)
      ensures ok && Acyclic(Edges(p)) && Ranked(p, old(order)) ==> Ranked(p, order)
      ensures ok && m !in old(visited) ==> order != [] && order[|order| - 1] == m
      ensures ok && Acyclic(Edges(p)) && m !in old(visited) ==> Descended(p, order, |order| - 1, |old(order)|)
      decreases p.Keys - visited
    {
      hide Ranked, Descended, Acyclic, Edges, Depends, InTurn;
      hide Holds, Loaded, Walked, OnTheWay, Extended, Descending, Legible, SourceMapBuilder.Valid;
      ghost var visited0, order0 := visited, order;
      if m in visited {
        VisitedAlready(p, m, visited, order);
        return true;
      }
      visited := visited + {m};
      DescentStarts(p, m, visited0, order0);
      ghost var cuts := [|order|];
      TurnsStart(p, m, order);
      var k := 0;
      while k < |p[m].dependencies|
        invariant builder.outputBuffer.buffer == old(builder.outputBuffer.buffer) || fresh(builder.outputBuffer.buffer)
        invariant builder.mappings.buffer == old(builder.mappings.buffer) || fresh(builder.mappings.buffer)
        invariant 0 <= k <= |p[m].dependencies|
        invariant Holds(p) && Descending(p, m, k, visited0, order0, visited, order)
        invariant forall x :: x in order && x !in order0 ==> Legible(p, x)
        invariant |cuts| == k + 1 && cuts[0] == |order0|
        invariant Acyclic(Edges(p)) ==> Turning(p, m, order0, order, cuts)
      {
        ghost var visited1, order1, d := visited, order, p[m].dependencies[k];
        DescentReady(p, m, k, visited0, order0, visited1, order1);
        ok := Visit(p, p[m].dependencies[k]);
        if !ok {
          ghost var x :| Depends(p, d, x) && !Legible(p, x);
          DependsVia(p, m, d, x);
          return;
        }
        DescentStep(p, m, k, visited0, order0, visited1, order1, visited, order);
        cuts := cuts + [|order|];
        if Acyclic(Edges(p)) { Turned(p, m, k, order0, visited1, order1, visited, order, cuts[..k + 1]); }
        k := k + 1;
      }
      DescentEnds(p, m, visited0, order0, visited, order);
      if Acyclic(Edges(p)) { TurnsDone(p, m, order0, order, cuts); }
      ok := Append(p, m);
      MyOwn(p, m);
    }
  }

  /** The whole bundle; `comment` makes the last line out of the source map. Every
      module the entry depends on is in it once, dependencies first unless on a
      cycle; its text is theirs, and its map says what theirs say, line by line. */
  method BundleWithDependencies(p: Program, entry: Id, comment: (seq<string>, Bytes) -> Bytes)
    returns (ok: bool, content: Bytes, names: seq<string>, mappings: Bytes, ghost order: seq<Id>)
    requires Loaded(p) && entry in p
    ensures ok <==> forall x :: Depends(p, entry, x) ==> Legible(p, x)
    ensures ok ==> NoRepeats(order) && Placed(p, order) && forall x :: x in order <==> Depends(p, entry, x)
    ensures ok ==> Within(p, order) && content == Text(Sources(p, order)) + comment(names, mappings) + [NEWLINE]
    ensures ok ==> InLine(Sources(p, order), Text(Sources(p, order)), mappings) && Pooled(Sources(p, order), names)
    ensures ok && AllProper(Sources(p, order)) && |names| <= 0x4000_0000 ==>
      && Finish(mappings).ok && Sourced(Finish(mappings).segs, |names|)
      && Meaning(mappings, names) == Said(Sources(p, order))
    ensures ok && Acyclic(Edges(p)) ==>
      Ranked(p, order) && order != [] && order[|order| - 1] == entry && Descended(p, order, |order| - 1, 0)
  {
    hide Ranked, Descended, Acyclic, Edges;
    hide Loaded, Legible, Depends, Walked, Extended, Placed, NoRepeats, Built, InLine, Pooled, AllProper, Meaning,
        Said, Text, Finish, Sourced, SourceMapBuilder.Valid;
    var b := new Bundler(p);
    NoneRanked(p);
    assert OnTheWay(p, {}, [], entry);
    ok := b.Visit(p, entry);
    content, names, mappings, order := [], [], [], b.order;
    if ok {
      WalkIsExact(p, entry, b.visited, order);
      ghost var o := ProductOf(b.builder);
      BuiltMeans(Sources(p, order), o);
      names, mappings := b.builder.ToSourceMap();
      b.builder.AddLine(comment(names, mappings));
      content := b.builder.ToContent();
      InLineText(Sources(p, order), o.output, mappings);
    }
  }

  lemma InLineText(parts: seq<Part>, output: Bytes, m: Bytes)
    requires InLine(parts, output, m)
    ensures output == Text(parts)
  {
  }
}
