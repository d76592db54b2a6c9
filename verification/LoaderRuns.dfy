/** What every run of the module manager guarantees: no deadlock up to modules
    that never arrive or fail, factories once and in dependency order, counters
    that match the waiting lists, and a cycle behind every dropped edge. */
module LoaderRuns {
  import opened Graphs
  import opened LoaderState
  import opened ModuleManagers

  /** No call is in progress. */
  ghost predicate Idle(s: State)
  {
    StackOf(s) == Stack(multiset{}, {}, {}, {}, multiset{})
  }

  // -------------------------------------------------------------- no deadlock

  lemma LastEdge(g: Graph, x: Id, y: Id) returns (z: Id)
    requires Reaches(g, x, y)
    ensures (z, y) in g
  {
    var p :| Connects(g, x, y, p);
    z := p[|p| - 2];
    assert (p[|p| - 2], p[|p| - 1]) in g;
  }

  /** An incomplete module on which nobody works is on somebody's list. */
  lemma WaitsForSome(s: State, m: Id) returns (d: Id)
    requires Inv(s) && Idle(s) && m in s.modules && !s.modules[m].complete
    ensures (m, d) in WaitGraph(s.inverse)
  {
    assert s.h.due[m] > 0;
    d := AllWaitersFrom(s.inverse, m);
  }

  /** Between calls, a module that has not failed is incomplete exactly when its
      waiting leads to a module that has not arrived, or to one that failed. */
  lemma IncompleteIffBlocked(s: State, m: Id)
    requires Inv(s) && Idle(s) && m in s.modules && !s.modules[m].failed
    ensures !s.modules[m].complete <==>
      exists y :: Reaches(WaitGraph(s.inverse), m, y) && (y !in s.modules || s.modules[y].failed)
  {
    var g := WaitGraph(s.inverse);
    if !s.modules[m].complete {
      var open := set x | x in s.modules && !s.modules[x].complete;
      forall x | x in open ensures exists d :: (x, d) in g {
        var d := WaitsForSome(s, x);
      }
      Escapes(g, open, m);
      var y :| y !in open && Reaches(g, m, y);
      var w := LastEdge(g, m, y);
      assert w in Waiters(s.inverse, y);
    } else {
      forall y | Reaches(g, m, y) ensures false {
        var d := FirstEdge(g, m, y);
        AllWaitersHas(s.inverse, d, m);
        assert false;
      }
    }
  }

  /** A module fails only if it is at fault, its load error having been reported or its
      factory having thrown, or if it depends, directly or not, on one that is. */
  lemma FailuresHaveCauses(s: State, m: Id)
    requires Inv(s) && m in s.modules && s.modules[m].failed
    ensures m in s.h.faults || exists f :: f in s.h.faults && Reaches(DeclaredGraph(s.h.notes), m, f)
  {
    assert Blamed(s);
    assert AtFault(s.h.faults, DeclaredGraph(s.h.notes), m);
  }

  /** While nothing is at fault, everything is complete exactly when everything that
      is waited for has been defined, however cyclic the declared dependencies are. */
  lemma NoDeadlock(s: State)
    requires Inv(s) && Idle(s) && s.h.faults == {}
    ensures (forall m :: m in s.modules ==> s.modules[m].complete && !s.modules[m].failed)
       <==> (forall d :: Waiters(s.inverse, d) != [] ==> d in s.modules)
  {
    hide Consistent;
    forall m | m in s.modules ensures !s.modules[m].failed {
      if s.modules[m].failed { FailuresHaveCauses(s, m); }
    }
    UnfailedComplete(s);
  }

  /** The same for states in which modules were at fault but none failed. */
  lemma UnfailedComplete(s: State)
    requires Inv(s) && Idle(s) && forall m :: m in s.modules ==> !s.modules[m].failed
    ensures (forall m :: m in s.modules ==> s.modules[m].complete)
       <==> (forall d :: Waiters(s.inverse, d) != [] ==> d in s.modules)
  {
    var g := WaitGraph(s.inverse);
    if forall d :: Waiters(s.inverse, d) != [] ==> d in s.modules {
      forall m | m in s.modules ensures s.modules[m].complete {
        IncompleteIffBlocked(s, m);
        if !s.modules[m].complete {
          var y :| Reaches(g, m, y) && (y !in s.modules || s.modules[y].failed);
          var w := LastEdge(g, m, y);
          assert false;
        }
      }
    } else {
      var d :| Waiters(s.inverse, d) != [] && d !in s.modules;
      var m := Waiters(s.inverse, d)[0];
      AllWaitersHas(s.inverse, d, m);
      assert (m, d) in g;
      EdgeReaches(g, m, d);
      IncompleteIffBlocked(s, m);
    }
  }

  ghost predicate KeptFor(s: State, r: Id, p: Id)
  {
    && Plugin(r, p) in PluginWaiters(s.plugins, p) && (p in s.modules || p in s.h.requests)
    && (IsComplete(s.modules, p) ==> s.modules[p].failed)
  }

  /** A resource that is needed is there, has been requested, or waits for its
      plugin, which has been requested and has not completed, or failed. */
  lemma ResourcesReachTheirPlugins(s: State, r: Id)
    requires Inv(s) && Idle(s) && Unasked(s) && r in s.h.resources && r !in s.modules && r !in s.h.requests
    ensures exists p :: KeptFor(s, r, p)
  {
    assert Offered(s) && Asked(s);
    var p :| AwaitsPlugin(s.plugins, s.h.offers, r, p);
    assert KeptFor(s, r, p);
  }

  /** Every plugin dependency of a module that waits is complete, was dropped, or has gone
      through its plugin: the plugin is there or was requested, and the resource is there,
      was requested, or is kept for the plugin. */
  lemma PluginsAreAsked(s: State, m: Id, i: int)
    requires Inv(s) && Idle(s) && Unasked(s) && m in s.modules && m in s.h.notes
    requires 0 <= i < |s.h.notes[m].declared| && s.h.notes[m].declared[i].Plugin? && (m, i) !in s.h.dropped
    requires !s.modules[m].complete || i < s.h.notes[m].next
    ensures var r, p := s.h.notes[m].declared[i].resourceId, s.h.notes[m].declared[i].pluginId;
      || IsComplete(s.modules, r)
      || ((p in s.modules || p in s.h.requests)
          && (r in s.modules || r in s.h.requests || Plugin(r, p) in PluginWaiters(s.plugins, p)))
  {
    var r, p := s.h.notes[m].declared[i].resourceId, s.h.notes[m].declared[i].pluginId;
    if !s.modules[m].complete { AllDealt(s, m); }
    TracedOf(s);
    assert Asked(s);
    assert Forwarded(s);
    hide Consistent;
    assert Dealt(s.h.notes, m, i);
    assert Handed(s, r, p);
  }

  lemma AllDealt(s: State, m: Id)
    requires Inv(s) && Idle(s) && m in s.modules && !s.modules[m].complete
    ensures m in s.h.notes && s.h.notes[m].next == |s.h.notes[m].declared|
  {
    assert Alert(s);
  }

  /** Nothing is requested but for the sake of a declared dependency: the script loader
      is asked for what modules depend on and for their plugins, and a plugin for its
      resources, after it was complete. */
  lemma RequestsAreWanted(s: State, q: Id)
    requires Inv(s) && q in s.h.requests
    ensures q in s.h.vias
    ensures match s.h.vias[q]
      case ScriptLoader => DeclaredBy(s.h.notes, Regular(q)) || exists r :: DeclaredBy(s.h.notes, Plugin(r, q))
      case Provider(p, at) =>
        DeclaredBy(s.h.notes, Plugin(q, p)) && 0 <= at <= |s.h.done| && p in s.h.done[..at] && IsComplete(s.modules, p)
  {
    TracedOf(s);
    hide Consistent, DeclaredBy;
    assert Authorised(s.h, q);
    match s.h.vias[q]
    case ScriptLoader =>
    case Provider(p, at) => assert p in s.h.done;
  }

  /** The manager reports a cycle exactly when it gave up an edge. */
  lemma CyclesAreKnown(s: State)
    requires Inv(s)
    ensures s.cyclic <==> s.h.dropped != {}
  {
    TracedOf(s);
  }

  /** Nothing is requested twice, and whatever is waited for has been defined or
      requested, or is a resource. */
  lemma RequestedOnce(s: State, d: Id)
    requires Inv(s) && Idle(s) && Unasked(s)
    ensures forall i, j :: 0 <= i < j < |s.h.requests| ==> s.h.requests[i] != s.h.requests[j]
    ensures Waiters(s.inverse, d) != [] ==> d in s.modules || d in s.h.requests || d in s.h.resources
  {
    assert Asked(s);
  }

  /** Once everything requested is defined, nothing is at fault and no plugin that
      resources wait for is incomplete, every module is complete. */
  lemma RequestedAllComplete(s: State)
    requires Inv(s) && Idle(s) && Unasked(s) && s.h.faults == {}
    requires forall d :: d in s.h.requests ==> d in s.modules
    requires forall p :: p in s.modules && PluginWaiters(s.plugins, p) != [] ==> s.modules[p].complete
    ensures forall m :: m in s.modules ==> s.modules[m].complete && !s.modules[m].failed
  {
    hide Consistent;
    forall d | Waiters(s.inverse, d) != [] ensures d in s.modules {
      RequestedOnce(s, d);
      if d !in s.modules {
        ResourcesReachTheirPlugins(s, d);
        var p :| KeptFor(s, d, p);
        FaultlessUnfailed(s, p);
      }
    }
    NoDeadlock(s);
  }

  lemma FaultlessUnfailed(s: State, m: Id)
    requires Inv(s) && s.h.faults == {} && m in s.modules
    ensures !s.modules[m].failed
  {
    hide Consistent;
    if s.modules[m].failed { FailuresHaveCauses(s, m); }
  }

  /** No module has declared a plugin dependency. */
  ghost predicate PluginFree(notes: map<Id, Note>)
  {
    forall dep :: DeclaredBy(notes, dep) ==> !dep.Plugin?
  }

  /** With ordinary dependencies only, it is enough that everything requested has been
      defined and nothing is at fault. */
  lemma OrdinaryAllComplete(s: State)
    requires Inv(s) && Idle(s) && Unasked(s) && s.h.faults == {} && PluginFree(s.h.notes)
    requires forall d :: d in s.h.requests ==> d in s.modules
    ensures forall m :: m in s.modules ==> s.modules[m].complete && !s.modules[m].failed
  {
    assert Sourced(s);
    hide Consistent, DeclaredBy;
    forall p ensures PluginWaiters(s.plugins, p) == [] {
      if PluginWaiters(s.plugins, p) != [] { KeptArePlugins(s, p); }
    }
    RequestedAllComplete(s);
  }

  lemma KeptArePlugins(s: State, p: Id)
    requires Inv(s) && PluginWaiters(s.plugins, p) != []
    ensures exists dep :: DeclaredBy(s.h.notes, dep) && dep.Plugin?
  {
    assert Sourced(s);
    var dep := PluginWaiters(s.plugins, p)[0];
    assert dep in PluginWaiters(s.plugins, p);
    assert DeclaredBy(s.h.notes, dep) && dep.Plugin?;
  }

  // --------------------------------------------------- counters and factories

  /** `unresolvedDependenciesCount` of a module whose `_resolve` has returned is
      the number of its occurrences in the lists and in the rest of the walks. */
  lemma CountIsOccurrences(s: State, m: Id)
    requires Inv(s) && m in s.modules && !s.modules[m].complete && m !in s.h.busy
    ensures s.modules[m].unresolved == AllWaiters(s.inverse)[m] + s.h.pending[m]
    ensures s.modules[m].unresolved > 0
  {
    assert Tallied(s);
  }

  /** An edge was dropped only because the module depends on itself through it. */
  lemma DroppedOnCycle(s: State, m: Id, i: int)
    requires Inv(s) && (m, i) in s.h.dropped
    ensures Reaches(DeclaredGraph(s.h.notes), m, m)
  {
    assert DropsOnCycles(s);
    var d, g := DepId(s.h.notes[m].declared[i]), DeclaredGraph(s.h.notes);
    assert s.h.notes[m].declared[i] in s.h.notes[m].declared;
    assert (m, d) in g;
    EdgeReaches(g, m, d);
    ReachesTrans(g, m, d, m);
  }

  /** When the k-th factory starts, its module x becomes complete; by then every
      dependency whose edge was not dropped had become complete, and its own factory,
      if it ever starts, had started. */
  lemma FactoryAfterDependencies(s: State, k: int, i: int)
    requires Inv(s) && 0 <= k < |s.h.log|
    ensures s.h.log[k] in s.modules && s.h.log[k] in s.h.notes && |s.h.starts| == |s.h.log|
    ensures NoRepeats(s.h.log) && NoRepeats(s.h.done)
    ensures 0 <= s.h.starts[k] < |s.h.done| && s.h.done[s.h.starts[k]] == s.h.log[k]
    ensures var x := s.h.log[k];
      0 <= i < |s.h.notes[x].declared| && !Special(s.h.notes[x].declared[i]) && (x, i) !in s.h.dropped ==>
        var d := DepId(s.h.notes[x].declared[i]);
        && d in s.h.done[..s.h.starts[k]]
        && (d in s.h.log ==> d in s.h.log[..k])
        && (d !in s.h.log && s.h.notes[d].origin.Factory? ==> s.modules[d].failed)
  {
    assert Timed(s) && Logged(s);
    var x := s.h.log[k];
    if 0 <= i < |s.h.notes[x].declared| && !Special(s.h.notes[x].declared[i]) && (x, i) !in s.h.dropped {
      assert InTime(s.h.notes[x].declared, s.h.dropped, x, i, Earlier(s.h.done, s.h.starts[k]));
      StartedInTime(s, k, DepId(s.h.notes[x].declared[i]));
    }
  }

  lemma StartedInTime(s: State, k: int, d: Id)
    requires Inv(s) && 0 <= k < |s.h.log| && Lined(s.h.done, s.h.starts, s.h.log) && d in s.h.done[..s.h.starts[k]]
    ensures IsComplete(s.modules, d) && d in s.h.notes && (d in s.h.log ==> d in s.h.log[..k])
    ensures d !in s.h.log && s.h.notes[d].origin.Factory? ==> s.modules[d].failed
  {
    assert Timed(s) && Invoked(s);
    assert d in s.h.done;
    if d in s.h.log {
      var j :| 0 <= j < |s.h.log| && s.h.log[j] == d;
      var p :| 0 <= p < s.h.starts[k] && s.h.done[p] == d;
      assert s.h.starts[j] == p;
      assert j < k;
    }
  }

  /** A module that is complete without having run its factory never runs it:
      a factory that was pending when an error arrived is given up for good. */
  lemma NeverRunsLater(s: State, t: State, own: set<Id>, m: Id)
    requires Grows(s, t, own) && IsComplete(s.modules, m)
    ensures m in t.h.log <==> m in s.h.log
  {
    if m in t.h.log {
      var k :| 0 <= k < |t.h.log| && t.h.log[k] == m;
      assert k < |s.h.log| && s.h.log[k] == m;
    }
  }

  // ------------------------------------------------ a factory that threw strands

  /** Module 3 is defined and needs 4, which is requested; 5 is defined and its
      factory throws; 4 arrives and needs 5. These are the updates the manager
      then performs. */
  function Waiting3(): State
  {
    Rest(Request(Record(Define(Initial, 3, [Regular(4)], Factory, false), 3), 4, ScriptLoader), {})
  }

  function Thrown5(): State
  {
    Rest(Fetch(Take(End(Begin(Define(Waiting3(), 5, [], Factory, false), 5), 5, true), 5), 5), {})
  }

  function Stranded(): State
  {
    Rest(Fail(Define(Thrown5(), 4, [Regular(5)], Factory, false), 4), {})
  }

  /** Every update of the run is one that keeps the invariant. */
  lemma StrandedInv()
    ensures Inv(Waiting3()) && Inv(Thrown5()) && Inv(Stranded())
  {
    Waiting3Inv();
    Thrown5Inv();
    hide Consistent, Grown, Waiting3;
    var s := Thrown5();
    Thrown5State();
    DefineKeeps(s, 4, [Regular(5)], Factory, false);
    var d := Define(s, 4, [Regular(5)], Factory, false);
    assert Regular(5) in d.h.notes[4].declared && DepId(Regular(5)) == 5;
    assert (4, 5) in DeclaredGraph(d.h.notes);
    EdgeReaches(DeclaredGraph(d.h.notes), 4, 5);
    FailKeeps(d, 4);
    RestKeeps(Fail(d, 4), {});
  }

  lemma Waiting3Inv()
    ensures Inv(Waiting3())
  {
    hide Consistent, Grown, Shape;
    InitialInv();
    DefineKeeps(Initial, 3, [Regular(4)], Factory, false);
    var d := Define(Initial, 3, [Regular(4)], Factory, false);
    NoWayBack(d);
    InvShape(d);
    RecordKeeps(d, 3);
    var r := Record(d, 3);
    assert Regular(4) in r.h.notes[3].declared;
    assert DeclaredBy(r.h.notes, Regular(4));
    assert Wanted(r.h.notes, 4);
    RequestKeeps(r, 4, ScriptLoader);
    var q := LoaderState.Request(r, 4, ScriptLoader);
    assert q.modules[3].unresolved == 1 && q.h.notes[3].next == 1;
    InvShape(q);
    RestKeeps(q, {});
  }

  lemma NoWayBack(d: State)
    requires d == Define(Initial, 3, [Regular(4)], Factory, false)
    ensures !Reaches(LiveGraph(d.modules), 4, 3)
  {
    if Reaches(LiveGraph(d.modules), 4, 3) { var z := FirstEdge(LiveGraph(d.modules), 4, 3); }
  }

  lemma Waiting3State()
    ensures var s := Waiting3();
      && s.modules == map[3 := Module(Listed([Regular(4)]), Factory, false, 1, false, false)]
      && s.inverse == map[4 := [3]] && s.plugins == map[] && s.known == {4} && s.h.requests == [4] && Idle(s)
      && s.h.log == [] && s.h.faults == {}
  {
    assert [] + [3] == [3];
  }

  lemma Thrown5Inv()
    ensures Inv(Thrown5())
  {
    hide Consistent, Grown, Waiting3;
    Waiting3Inv();
    Waiting3State();
    var s := Waiting3();
    DefineKeeps(s, 5, [], Factory, false);
    var d := Define(s, 5, [], Factory, false);
    BeginKeeps(d, 5);
    EndKeeps(Begin(d, 5), 5, true);
    var e := End(Begin(d, 5), 5, true);
    TakeKeeps(e, 5);
    FetchKeeps(Take(e, 5), 5);
    var f := Fetch(Take(e, 5), 5);
    InvShape(f);
    RestKeeps(f, {});
  }

  lemma Thrown5State()
    ensures var s := Thrown5();
      && s.modules.Keys == {3, 5} && s.modules[3] == Module(Listed([Regular(4)]), Factory, false, 1, false, false)
      && s.modules[5].complete && s.modules[5].failed
      && s.inverse == map[4 := [3]] && s.plugins == map[] && s.known == {4} && s.h.requests == [4] && Idle(s)
      && s.h.log == [5] && s.h.faults == {5}
  {
    hide Waiting3;
    Waiting3State();
  }

  /** Every requested module is defined and no load error happened, yet module 3
      stays incomplete: 4 failed because of 5, and failing wakes nobody. */
  lemma ThrowingFactoryStrands()
    ensures var s := Stranded();
      && Inv(s) && Idle(s) && s.modules.Keys == {3, 4, 5} && s.h.requests == [4] && s.h.faults == {5} && s.h.log == [5]
      && Waiters(s.inverse, 4) == [3] && s.modules[4].failed
      && !s.modules[3].complete && s.modules[3].unresolved == 1
  {
    hide Consistent, Thrown5;
    StrandedInv();
    Thrown5State();
  }

  // ------------------------------------------------------------ whole sessions

  /** Foreign code reports no load error and no factory throws. */
  predicate Faultless(script: seq<Action>)
  {
    forall a :: a in script ==> !a.LoadErrorAction? && a != Return(true)
  }

  /** Foreign code defines modules with ordinary dependencies only. */
  predicate Ordinary(script: seq<Action>)
  {
    forall a, dep :: a in script && a.DefineAction? && dep in a.deps ==> !dep.Plugin?
  }

  ghost predicate Defines(script: seq<Action>, id: Id)
  {
    exists a :: a in script && a.DefineAction? && a.id == id
  }

  /** Whatever is declared as a dependency is defined at some time. */
  ghost predicate Closed(script: seq<Action>)
  {
    forall a, id :: a in script && a.DefineAction? && Regular(id) in a.deps ==> Defines(script, id)
  }

  /** What the actions read off the script mean for the state they led to. */
  lemma SessionFacts(s: State, script: seq<Action>)
    requires Inv(s) && Explained(Initial, s, script) && Faultless(script)
    ensures s.h.faults == {}
    ensures Ordinary(script) ==> PluginFree(s.h.notes)
    ensures Ordinary(script) && Closed(script) ==> forall q :: q in s.h.requests ==> q in s.modules
  {
    forall f ensures f !in s.h.faults { assert !Accused(script, s.h.log, f); }
    if Ordinary(script) {
      forall dep | DeclaredBy(s.h.notes, dep) ensures !dep.Plugin? { SessionDeclared(s, script, dep); }
      if Closed(script) {
        forall q | q in s.h.requests ensures q in s.modules { SessionRequests(s, script, q); }
      }
    }
  }

  /** What is declared was declared by the script. */
  lemma SessionDeclared(s: State, script: seq<Action>, dep: Dep)
    requires Inv(s) && Explained(Initial, s, script) && DeclaredBy(s.h.notes, dep)
    ensures exists a :: a in script && a.DefineAction? && dep in a.deps
  {
    TracedOf(s);
    hide Consistent;
    var m :| m in s.h.notes && dep in s.h.notes[m].declared;
    assert Introduces(s, script, m);
    assert DefineAction(m, s.h.notes[m].declared, s.h.notes[m].origin, s.h.notes[m].handler) in script;
  }

  lemma SessionRequests(s: State, script: seq<Action>, q: Id)
    requires Inv(s) && Explained(Initial, s, script) && Ordinary(script) && Closed(script) && q in s.h.requests
    ensures q in s.modules
  {
    hide Consistent, DeclaredBy, Explained, Timed, Blamed;
    TracedOf(s);
    DefinedAreThere(s, script);
    RequestsAreWanted(s, q);
    var dep := match s.h.vias[q]
      case ScriptLoader => (
        if DeclaredBy(s.h.notes, Regular(q)) then Regular(q)
        else var r :| DeclaredBy(s.h.notes, Plugin(r, q)); Plugin(r, q))
      case Provider(p, _) => Plugin(q, p);
    SessionDeclared(s, script, dep);
    var a :| a in script && a.DefineAction? && dep in a.deps;
    assert dep == Regular(q);
    assert Defines(script, q);
  }

  /** A whole session: a new manager, and foreign code until it has done all it does.
      Nothing fails without a cause in the script. If the script has no load error and no
      throwing factory, ordinary dependencies only, and defines what they ask for, then
      every module is complete in the end, and every factory has run. */
  method Session(script: seq<Action>) returns (manager: ModuleManager)
    ensures fresh(manager) && manager.Valid() && Idle(manager.St()) && manager.script == []
    ensures Grows(Initial, manager.St(), {}) && Explained(Initial, manager.St(), script)
    ensures Faultless(script) ==> forall m :: m in manager.modules ==> !manager.modules[m].failed
    ensures Faultless(script) && Ordinary(script) && (forall d :: d in manager.h.requests ==> d in manager.modules) ==>
      forall m :: m in manager.modules ==> manager.modules[m].complete
    ensures Faultless(script) && Ordinary(script) && Closed(script) ==> forall a :: a in script && a.DefineAction? ==>
      && a.id in manager.modules && manager.modules[a.id].complete && a.id in manager.h.notes
      && (manager.h.notes[a.id].origin.Factory? ==> a.id in manager.h.log)
  {
    hide Outcomes, Consistent, Grown, Explained, Closed, Ordinary;
    manager := new ModuleManager(script);
    CalledRefl(Initial, script, {});
    while |manager.script| > 0
      invariant fresh(manager)
      invariant manager.St() in Outcomes(Initial, script, manager.script, {}, StackOf(Initial))
      decreases |manager.script|
    {
      ghost var s, n := manager.St(), manager.script;
      CalledFacts(Initial, script, s, n, {}, StackOf(Initial));
      manager.RunNext();
      CalledTrans(Initial, script, s, n, manager.St(), manager.script, {}, StackOf(Initial), {}, StackOf(s));
    }
    CallParts(Initial, script, manager.St(), [], {}, StackOf(Initial));
    assert Consumed(script, []) == script;
    SessionEnds(manager.St(), script);
  }

  lemma SessionEnds(s: State, script: seq<Action>)
    requires Inv(s) && Idle(s) && Unasked(s) && Explained(Initial, s, script)
    ensures Faultless(script) ==> forall m :: m in s.modules ==> !s.modules[m].failed
    ensures Faultless(script) && Ordinary(script) && (forall d :: d in s.h.requests ==> d in s.modules) ==>
      forall m :: m in s.modules ==> s.modules[m].complete
    ensures Faultless(script) && Ordinary(script) && Closed(script) ==> forall a :: a in script && a.DefineAction? ==>
      && a.id in s.modules && s.modules[a.id].complete && a.id in s.h.notes
      && (s.h.notes[a.id].origin.Factory? ==> a.id in s.h.log)
  {
    hide Consistent, Ordinary, Closed, PluginFree, Explained;
    if Faultless(script) {
      SessionFacts(s, script);
      forall m | m in s.modules ensures !s.modules[m].failed { FaultlessUnfailed(s, m); }
      if Ordinary(script) && (forall d :: d in s.h.requests ==> d in s.modules) {
        OrdinaryAllComplete(s);
      }
      forall a | a in script && a.DefineAction? && a.id in s.modules && s.modules[a.id].complete
        ensures a.id in s.h.notes && (s.h.notes[a.id].origin.Factory? ==> a.id in s.h.log)
      {
        FactoryRan(s, a.id);
      }
      DefinedAreThere(s, script);
    }
  }

  lemma DefinedAreThere(s: State, script: seq<Action>)
    requires Explained(Initial, s, script)
    ensures forall a :: a in script && a.DefineAction? ==> a.id in s.modules
  {
  }

  /** A module that is complete and did not fail has had its factory run. */
  lemma FactoryRan(s: State, m: Id)
    requires Inv(s) && m in s.modules && s.modules[m].complete && !s.modules[m].failed
    ensures m in s.h.notes && (s.h.notes[m].origin.Factory? ==> m in s.h.log)
  {
    assert Invoked(s);
  }
}
