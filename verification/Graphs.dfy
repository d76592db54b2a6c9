/** Finite directed graphs as sets of edges, paths of at least one edge, and the
    three facts the loader and the bundler rest on: what one more edge adds to
    reachability, when it keeps the graph acyclic, and that a walk through a
    finite acyclic graph must leave any finite set it can always continue from. */
module Graphs {
  type Id = int
  type Graph = set<(Id, Id)>

  ghost predicate NoRepeats(xs: seq<Id>)
  {
    forall i, j :: 0 <= i < j < |xs| ==> xs[i] != xs[j]
  }

  ghost predicate IsPath(g: Graph, p: seq<Id>)
  {
    |p| >= 1 && forall i :: 0 <= i < |p| - 1 ==> (p[i], p[i + 1]) in g
  }

  ghost predicate Connects(g: Graph, x: Id, y: Id, p: seq<Id>)
  {
    |p| >= 2 && IsPath(g, p) && p[0] == x && p[|p| - 1] == y
  }

  /** There is a path of at least one edge from x to y. */
  ghost predicate Reaches(g: Graph, x: Id, y: Id)
  {
    exists p :: Connects(g, x, y, p)
  }

  ghost predicate Acyclic(g: Graph)
  {
    forall x :: !Reaches(g, x, x)
  }

  lemma EdgeReaches(g: Graph, x: Id, y: Id)
    requires (x, y) in g
    ensures Reaches(g, x, y)
  {
    assert Connects(g, x, y, [x, y]);
  }

  lemma ReachesTrans(g: Graph, x: Id, y: Id, z: Id)
    requires Reaches(g, x, y) && Reaches(g, y, z)
    ensures Reaches(g, x, z)
  {
    var p :| Connects(g, x, y, p);
    var q :| Connects(g, y, z, q);
    assert Connects(g, x, z, p + q[1..]);
  }

  lemma ReachesMono(g: Graph, h: Graph, x: Id, y: Id)
    requires g <= h && Reaches(g, x, y)
    ensures Reaches(h, x, y)
  {
    var p :| Connects(g, x, y, p);
    assert Connects(h, x, y, p);
  }

  lemma AcyclicMono(g: Graph, h: Graph)
    requires g <= h && Acyclic(h)
    ensures Acyclic(g)
  {
    forall x ensures !Reaches(g, x, x) {
      if Reaches(g, x, x) { ReachesMono(g, h, x, x); }
    }
  }

  /** The first edge of a path, and what is left of it. */
  lemma FirstEdge(g: Graph, x: Id, y: Id) returns (z: Id)
    requires Reaches(g, x, y)
    ensures (x, z) in g && (z == y || Reaches(g, z, y))
  {
    var p :| Connects(g, x, y, p);
    z := p[1];
    if |p| > 2 { assert Connects(g, z, y, p[1..]); }
  }

  /** A path in g plus one edge either avoids the edge or runs through it. */
  lemma {:induction false} ThroughNewEdge(g: Graph, m: Id, d: Id, p: seq<Id>)
    requires |p| >= 2 && IsPath(g + {(m, d)}, p)
    ensures var x, y := p[0], p[|p| - 1];
            Reaches(g, x, y)
            || ((x == m || Reaches(g, x, m)) && (y == d || Reaches(g, d, y)))
    decreases |p|
  {
    var x, z, y := p[0], p[1], p[|p| - 1];
    if (x, z) in g { EdgeReaches(g, x, z); }
    if |p| > 2 {
      assert Connects(g + {(m, d)}, z, y, p[1..]);
      ThroughNewEdge(g, m, d, p[1..]);
      if (x, z) in g {
        if Reaches(g, z, y) { ReachesTrans(g, x, z, y); }
        if Reaches(g, z, m) { ReachesTrans(g, x, z, m); }
      }
    }
  }

  /** Adding m -> d is safe exactly when no way leads back from d to m. */
  lemma AddEdgeKeepsAcyclic(g: Graph, m: Id, d: Id)
    requires Acyclic(g)
    ensures Acyclic(g + {(m, d)}) <==> m != d && !Reaches(g, d, m)
  {
    var h := g + {(m, d)};
    EdgeReaches(h, m, d);
    if Reaches(g, d, m) {
      ReachesMono(g, h, d, m);
      ReachesTrans(h, m, d, m);
    } else if m != d {
      forall x ensures !Reaches(h, x, x) {
        if Reaches(h, x, x) {
          var p :| Connects(h, x, x, p);
          ThroughNewEdge(g, m, d, p);
          if Reaches(g, d, x) && Reaches(g, x, m) { ReachesTrans(g, d, x, m); }
          assert false;
        }
      }
    }
  }

  /** A search that has looked at every edge leaving s without meeting `to`, and
      left out only ends that lead nowhere, proves there is no way to it. */
  lemma {:induction false} SearchExhausted(g: Graph, s: set<Id>, to: Id, p: seq<Id>)
    requires |p| >= 2 && IsPath(g, p) && p[0] in s
    requires forall e :: e in g && e.0 in s ==> e.1 != to && (e.1 in s || forall f :: f in g ==> f.0 != e.1)
    ensures p[|p| - 1] != to
    decreases |p|
  {
    assert (p[0], p[1]) in g;
    if |p| > 2 {
      assert (p[1], p[2]) in g && (p[1], p[2]).0 == p[1];
      SearchExhausted(g, s, to, p[1..]);
    }
  }

  /** If every node of the finite set s has an outgoing edge and g is acyclic,
      every node of s reaches a node outside s. */
  lemma {:induction false} Escapes(g: Graph, s: set<Id>, x: Id)
    requires Acyclic(g) && x in s
    requires forall v :: v in s ==> exists w :: (v, w) in g
    ensures exists y :: y !in s && Reaches(g, x, y)
  {
    EscapesFrom(g, s, x, {x}, x);
  }

  lemma {:induction false} EscapesFrom(g: Graph, s: set<Id>, x: Id, seen: set<Id>, last: Id)
    requires Acyclic(g) && seen <= s && last in seen
    requires forall v :: v in s ==> exists w :: (v, w) in g
    requires forall v :: v in seen ==> v == last || Reaches(g, v, last)
    requires x in seen
    ensures exists y :: y !in s && Reaches(g, x, y)
    decreases s - seen
  {
    var w :| (last, w) in g;
    EdgeReaches(g, last, w);
    forall v | v in seen ensures Reaches(g, v, w) {
      if v != last { ReachesTrans(g, v, last, w); }
    }
    if w in s {
      assert w !in seen;
      EscapesFrom(g, s, x, seen + {w}, w);
    }
  }
}
