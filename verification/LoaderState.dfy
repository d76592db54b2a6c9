/** The bookkeeping of the AMD module manager as a value, the invariant that
    every nesting of its calls keeps, and the atomic updates it is built from.
    `ModuleManager` performs the updates on its fields; the theorems about
    whole runs are lemmas about states that satisfy the invariant. */
module LoaderState {
  import opened Graphs

  // ---------------------------------------------------------------- entities

  datatype Dep =
    | Exports
    | ModuleObject
    | Require
    | Regular(regularId: Id)
    | Plugin(resourceId: Id, pluginId: Id)

  /** The id a dependency carries; the three special ones have reserved ids. */
  function DepId(d: Dep): Id
  {
    match d
    case Exports => 0
    case ModuleObject => 1
    case Require => 2
    case Regular(id) => id
    case Plugin(id, _) => id
  }

  predicate Special(d: Dep)
  {
    d.Exports? || d.ModuleObject? || d.Require?
  }

  datatype Callback = NoCallback | Value | Factory

  datatype Dependencies = Released | Listed(list: seq<Dep>)

  datatype Module = Module(
    dependencies: Dependencies,
    callback: Callback,
    errorback: bool,
    unresolved: int,
    complete: bool,
    failed: bool)

  type Modules = map<Id, Module>
  type Inverse = map<Id, seq<Id>>
  type Plugins = map<Id, seq<Dep>>

  /** What is remembered of a module only to state properties.
      declared: the dependency list it was defined with, never cleared;
      origin:   the callback it was defined with, never cleared;
      handler:  whether it was defined with an errorback, never cleared;
      next:     how many of its dependencies `_resolve` has dealt with. */
  datatype Note = Note(declared: seq<Dep>, origin: Callback, handler: bool, next: int)

  /** A request goes to the script loader, or to a plugin, which is complete then: it is
      among the first `at` modules that became complete. */
  datatype Via = ScriptLoader | Provider(plugin: Id, at: int)

  /** dropped: the edges given up to break a cycle, as (module, position);
      due:     every wake-up still to come, with multiplicity;
      pending: the waiters in the not yet processed parts of the lists that
               suspended `_onModuleComplete` calls are walking;
      busy:    modules with a suspended `_resolve` or an imminent completion;
      running: modules between `_isComplete = true` and the clearing of their list;
      log:     the factories invoked so far, in order;
      asking:  awaited modules that are just about to be requested;
      requests: what was passed to the script loader or to a plugin, in order;
      vias:    to whom each of them was passed;
      opening: plugin dependencies that are just about to be passed on;
      resources: ids that plugins provide;
      providing: complete modules whose list of awaited resources is not fetched yet;
      offers:  the resources in the not yet processed parts of fetched lists;
      woken:   the waiters counted down so far, in order;
      called:  the errorbacks called so far, in order;
      faults:  modules whose load error was reported or whose factory threw;
      done:    the modules in the order in which they became complete;
      starts:  for each factory in `log`, its module's place in `done`. */
  datatype History = History(
    notes: map<Id, Note>,
    dropped: set<(Id, int)>,
    due: multiset<Id>,
    pending: multiset<Id>,
    busy: set<Id>,
    running: set<Id>,
    log: seq<Id>,
    asking: set<Id>,
    requests: seq<Id>,
    vias: map<Id, Via>,
    opening: set<(Id, int)>,
    resources: set<Id>,
    providing: set<Id>,
    offers: multiset<Dep>,
    woken: seq<Id>,
    called: seq<Id>,
    faults: set<Id>,
    done: seq<Id>,
    starts: seq<int>)

  datatype State = State(
    modules: Modules, known: set<Id>, inverse: Inverse, plugins: Plugins, cyclic: bool, h: History)

  const Initial := State(map[], {}, map[], map[], false,
    History(map[], {}, multiset{}, multiset{}, {}, {}, [], {}, [], map[], {}, {}, {}, multiset{}, [], [], {}, [], []))

  /** No request is just about to be made. */
  predicate Unasked(s: State)
  {
    s.h.asking == {} && s.h.opening == {}
  }

  // ------------------------------------------------------------- derived data

  function Waiters(inverse: Inverse, d: Id): seq<Id>
  {
    if d in inverse then inverse[d] else []
  }

  /** The resources that wait for plugin p to be complete. */
  function PluginWaiters(plugins: Plugins, p: Id): seq<Dep>
  {
    if p in plugins then plugins[p] else []
  }

  /** Resource r will be asked for: when plugin p completes, or by a walk under way. */
  predicate AwaitsPlugin(plugins: Plugins, offers: multiset<Dep>, r: Id, p: Id)
  {
    Plugin(r, p) in PluginWaiters(plugins, p) || Plugin(r, p) in offers
  }

  predicate IsComplete(modules: Modules, d: Id)
  {
    d in modules && modules[d].complete
  }

  /** m -> d whenever m is on d's list of modules to wake. */
  function WaitGraph(inverse: Inverse): Graph
  {
    set d, m | d in inverse && m in inverse[d] :: (m, d)
  }

  /** The edges `_hasDependencyPath` follows: listed dependencies of defined modules. */
  function LiveGraph(modules: Modules): Graph
  {
    set m, d | m in modules && modules[m].dependencies.Listed? && d in modules[m].dependencies.list :: (m, DepId(d))
  }

  /** All edges ever declared. */
  function DeclaredGraph(notes: map<Id, Note>): Graph
  {
    set m, d | m in notes && d in notes[m].declared :: (m, DepId(d))
  }

  /** All waiters of all lists, with multiplicity. */
  ghost function AllWaiters(inverse: Inverse): multiset<Id>
  {
    if !(exists d :: d in inverse) then multiset{}
    else
      var d :| d in inverse;
      multiset(inverse[d]) + AllWaiters(inverse - {d})
  }

  // ---------------------------------------------------------------- invariant

  ghost predicate Shape(s: State)
  {
    && s.h.notes.Keys == s.modules.Keys
    && (forall m :: m in s.modules ==>
          && 0 <= s.h.notes[m].next <= |s.h.notes[m].declared|
          && (s.modules[m].dependencies.Listed? ==> s.modules[m].dependencies.list == s.h.notes[m].declared))
    && (forall m :: m in s.h.due ==> m in s.modules)
    && (forall d :: d in s.h.running ==> IsComplete(s.modules, d))
  }

  /** `unresolvedDependenciesCount` is exactly the number of wake-ups due plus
      the dependencies `_resolve` has not dealt with yet. */
  ghost predicate Counted(s: State)
    requires Shape(s)
  {
    forall m :: m in s.modules ==>
      s.modules[m].unresolved == s.h.due[m] + (|s.h.notes[m].declared| - s.h.notes[m].next)
  }

  /** What is due is what the lists hold and what suspended walks have left. */
  ghost predicate Tallied(s: State)
  {
    s.h.due == AllWaiters(s.inverse) + s.h.pending
  }

  /** A dependency that has been dealt with is complete, was dropped, or has the
      module on its list. */
  ghost predicate Settled(s: State)
    requires Shape(s)
  {
    forall m, i :: m in s.modules && 0 <= i < s.h.notes[m].next && !Special(s.h.notes[m].declared[i]) ==>
      var d := DepId(s.h.notes[m].declared[i]);
      IsComplete(s.modules, d) || (m, i) in s.h.dropped || m in Waiters(s.inverse, d)
  }

  /** A complete module has no waiters left, unless it failed or is just completing. */
  ghost predicate Woken(s: State)
  {
    forall d :: IsComplete(s.modules, d) && Waiters(s.inverse, d) != [] ==>
      d in s.h.running || s.modules[d].failed
  }

  /** An incomplete module nobody is working on still waits for something. */
  ghost predicate Alert(s: State)
    requires Shape(s)
  {
    forall m :: m in s.modules && !s.modules[m].complete && m !in s.h.busy ==>
      s.h.notes[m].next == |s.h.notes[m].declared| && s.modules[m].unresolved > 0
  }

  /** Who waits has its dependencies listed, the awaited one among them. */
  ghost predicate WaitsAreLive(s: State)
  {
    WaitGraph(s.inverse) <= LiveGraph(s.modules)
  }

  /** A module that completed without error has nothing due any more, and a
      module whose dependencies were released never will. */
  ghost predicate Finished(s: State)
    requires Shape(s)
  {
    forall m :: m in s.modules ==>
      && (s.modules[m].complete && !s.modules[m].failed ==> s.modules[m].unresolved == 0)
      && (s.modules[m].failed ==> s.modules[m].complete)
      && (s.modules[m].dependencies.Released? ==> s.modules[m].complete && s.modules[m].unresolved == 0)
  }

  /** A dropped edge lies on a cycle of declared dependencies. */
  ghost predicate DropsOnCycles(s: State)
    requires Shape(s)
  {
    forall m, i :: (m, i) in s.h.dropped ==>
      && m in s.modules && 0 <= i < s.h.notes[m].next
      && Reaches(DeclaredGraph(s.h.notes), DepId(s.h.notes[m].declared[i]), m)
  }

  /** The factory log has no repetition, and lists complete modules all of whose
      dependencies have been dealt with. */
  ghost predicate Logged(s: State)
    requires Shape(s)
  {
    var log, notes := s.h.log, s.h.notes;
    && NoRepeats(log)
    && (forall k :: 0 <= k < |log| ==> IsComplete(s.modules, log[k]) && notes[log[k]].next == |notes[log[k]].declared|)
  }

  /** A complete module that was defined with a factory has had it invoked, or
      failed; until it completes its callbacks are those it was defined with. */
  ghost predicate Invoked(s: State)
    requires Shape(s)
  {
    forall d :: d in s.modules ==>
      && (s.modules[d].complete && s.h.notes[d].origin.Factory? ==> s.modules[d].failed || d in s.h.log)
      && (!s.modules[d].complete ==>
            s.modules[d].callback == s.h.notes[d].origin && s.modules[d].errorback == s.h.notes[d].handler)
  }

  /** Whatever is waited for is defined, was passed to the script loader, is
      provided by a plugin, or is about to be requested; nothing is requested twice. */
  ghost predicate Asked(s: State)
  {
    && (forall d :: d in s.inverse ==> d in s.modules || d in s.known || d in s.h.resources || d in s.h.asking)
    && (forall d :: d in s.known <==> d in s.h.requests)
    && NoRepeats(s.h.requests)
  }

  /** Resources: each is there, requested, or kept for its plugin, which has been
      requested itself; a complete plugin keeps none, unless it failed or is just
      completing. */
  ghost predicate Offered(s: State)
  {
    && (forall r :: r in s.h.resources ==>
          r in s.modules || r in s.known || exists p :: AwaitsPlugin(s.plugins, s.h.offers, r, p))
    && (forall p :: IsComplete(s.modules, p) && PluginWaiters(s.plugins, p) != [] ==>
      p in s.h.providing || s.modules[p].failed)
    && (forall p :: p in s.h.providing ==> IsComplete(s.modules, p))
    && (forall p :: PluginWaiters(s.plugins, p) != [] ==> p in s.modules || p in s.known || p in s.h.asking)
  }

  /** The modules complete before place p of `done`. */
  function Earlier(done: seq<Id>, p: int): seq<Id>
  {
    if 0 <= p <= |done| then done[..p] else done
  }

  /** Dependency i of m is among the modules `earlier`, if it is one to wait for. */
  predicate InTime(declared: seq<Dep>, dropped: set<(Id, int)>, m: Id, i: int, earlier: seq<Id>)
  {
    0 <= i < |declared| ==> Special(declared[i]) || (m, i) in dropped || DepId(declared[i]) in earlier
  }

  /** The factories in `log` started at the places `starts` of `done`, in this order. */
  ghost predicate Lined(done: seq<Id>, starts: seq<int>, log: seq<Id>)
  {
    && NoRepeats(done) && |starts| == |log|
    && (forall k :: 0 <= k < |log| ==> 0 <= starts[k] < |done| && done[starts[k]] == log[k])
    && (forall j, k :: 0 <= j < k < |log| ==> starts[j] < starts[k])
  }

  /** When a factory starts, every dependency whose edge was not dropped is complete. */
  ghost predicate Served(notes: map<Id, Note>, dropped: set<(Id, int)>, done: seq<Id>, starts: seq<int>, log: seq<Id>)
  {
    |starts| == |log| && forall k, i :: 0 <= k < |log| && log[k] in notes ==>
      InTime(notes[log[k]].declared, dropped, log[k], i, Earlier(done, starts[k]))
  }

  /** `done` lists the complete modules, and factories start when their modules
      become complete, in time. */
  ghost predicate Timed(s: State)
  {
    && (forall m :: m in s.h.done <==> IsComplete(s.modules, m))
    && Lined(s.h.done, s.h.starts, s.h.log) && Served(s.h.notes, s.h.dropped, s.h.done, s.h.starts, s.h.log)
  }

  /** m is at fault itself or depends, directly or not, on a module that is. */
  ghost predicate AtFault(faults: set<Id>, declared: Graph, m: Id)
  {
    m in faults || exists f :: f in faults && Reaches(declared, m, f)
  }

  /** Nothing fails without a cause. */
  ghost predicate Blamed(s: State)
  {
    forall m :: m in s.modules && s.modules[m].failed ==> AtFault(s.h.faults, DeclaredGraph(s.h.notes), m)
  }

  ghost predicate DeclaredBy(notes: map<Id, Note>, dep: Dep)
  {
    exists m :: m in notes && dep in notes[m].declared
  }

  /** Some module depends on q itself, or on a resource of it as a plugin. */
  ghost predicate Wanted(notes: map<Id, Note>, q: Id)
  {
    DeclaredBy(notes, Regular(q)) || exists r :: DeclaredBy(notes, Plugin(r, q))
  }

  /** The request for q was right: the script loader is asked for what modules depend on
      and for their plugins, and a plugin, once complete, for its resources. */
  ghost predicate Vouched(notes: map<Id, Note>, done: seq<Id>, q: Id, via: Via)
  {
    match via
    case ScriptLoader => Wanted(notes, q)
    case Provider(p, at) => DeclaredBy(notes, Plugin(q, p)) && 0 <= at <= |done| && p in done[..at]
  }

  ghost predicate Authorised(h: History, q: Id)
  {
    q in h.vias && Vouched(h.notes, h.done, q, h.vias[q])
  }

  /** Requests and resources come from declared dependencies. */
  ghost predicate Sourced(s: State)
  {
    && (forall p, dep :: dep in PluginWaiters(s.plugins, p) ==>
          DeclaredBy(s.h.notes, dep) && dep.Plugin? && dep.pluginId == p)
    && (forall dep :: dep in s.h.offers ==>
          DeclaredBy(s.h.notes, dep) && dep.Plugin? && IsComplete(s.modules, dep.pluginId))
    && (forall r :: r in s.h.resources ==> exists p :: DeclaredBy(s.h.notes, Plugin(r, p)))
    && (forall q :: q in s.h.requests ==> Authorised(s.h, q))
    && (forall q :: q in s.h.vias ==> q in s.h.requests)
  }

  /** Resource r of plugin p has been passed on: the plugin is there or requested, and
      the resource is there, requested, or kept for the plugin. */
  predicate PassedOn(s: State, r: Id, p: Id)
  {
    (p in s.modules || p in s.known) && KeptOrKnown(s, r, p)
  }

  predicate KeptOrKnown(s: State, r: Id, p: Id)
  {
    r in s.modules || r in s.known || AwaitsPlugin(s.plugins, s.h.offers, r, p)
  }

  predicate Handed(s: State, r: Id, p: Id)
  {
    IsComplete(s.modules, r) || PassedOn(s, r, p)
  }

  /** `_resolve` has dealt with plugin dependency i of m. */
  predicate Dealt(notes: map<Id, Note>, m: Id, i: int)
  {
    m in notes && 0 <= i < notes[m].next && i < |notes[m].declared| && notes[m].declared[i].Plugin?
  }

  /** Every plugin dependency that has been dealt with is complete, was dropped, or has
      been passed on to its plugin. */
  ghost predicate Forwarded(s: State)
  {
    forall m, i :: Dealt(s.h.notes, m, i) && (m, i) !in s.h.dropped && (m, i) !in s.h.opening ==>
      Handed(s, s.h.notes[m].declared[i].resourceId, s.h.notes[m].declared[i].pluginId)
  }

  /** The manager knows of a cycle exactly when an edge was given up. */
  predicate Flagged(s: State)
  {
    s.cyclic <==> s.h.dropped != {}
  }

  ghost predicate Traced(s: State)
  {
    Timed(s) && Blamed(s) && Sourced(s) && Forwarded(s) && Flagged(s)
  }

  /** Counters and completion flags agree. */
  ghost predicate Ledger(s: State)
  {
    Shape(s) && Counted(s) && Alert(s) && Finished(s)
  }

  /** Lists and completion flags agree. */
  ghost predicate Listing(s: State)
    requires Shape(s)
  {
    Settled(s) && Woken(s)
  }

  /** Waiting follows declared dependencies and never goes round in a circle. */
  ghost predicate Ordered(s: State)
  {
    Tallied(s) && WaitsAreLive(s) && Acyclic(WaitGraph(s.inverse))
  }

  /** Factories ran once, after what they depend on. */
  ghost predicate Safe(s: State)
    requires Shape(s)
  {
    DropsOnCycles(s) && Logged(s) && Invoked(s)
  }

  /** The consistent states. (A set, so that a proof that calls a lemma about
      them handles membership as one fact.) */
  ghost function Consistent(): iset<State>
  {
    iset s: State | Asked(s) && Offered(s) && Traced(s) && Ledger(s) && Listing(s) && Ordered(s) && Safe(s)
  }

  ghost predicate Inv(s: State)
  {
    s in Consistent()
  }

  // -------------------------------------------------- how a call may change it

  /** What every call, however deeply it nests, does to the state: it defines
      modules, completes them, and starts factories of modules that were not
      complete; it puts the bookkeeping of the suspended callers back as it was.
      Only the modules in `own` have had dependencies dealt with. */
  ghost function Grown(s: State, own: set<Id>): iset<State>
  {
    iset t: State |
      && Shape(s) && Shape(t)
      && s.modules.Keys <= t.modules.Keys && s.known <= t.known
      && (forall m :: m in s.modules ==>
            && t.h.notes[m].declared == s.h.notes[m].declared
            && t.h.notes[m].origin == s.h.notes[m].origin && t.h.notes[m].handler == s.h.notes[m].handler
            && (m !in own ==> t.h.notes[m].next == s.h.notes[m].next && t.h.due[m] <= s.h.due[m])
            && (s.modules[m].complete ==> t.modules[m].complete)
            && (s.modules[m].failed ==> t.modules[m].failed))
      && s.h.dropped <= t.h.dropped
      && s.h.log <= t.h.log
      && (forall k :: |s.h.log| <= k < |t.h.log| ==> !IsComplete(s.modules, t.h.log[k]))
  }

  ghost predicate Grows(s: State, t: State, own: set<Id>)
  {
    t in Grown(s, own)
  }

  lemma GrowsRefl(s: State)
    requires Shape(s)
    ensures Grows(s, s, {})
  {
  }

  /** Modules defined on the way may be dealt with on the way. */
  lemma GrowsTrans(s: State, t: State, u: State, a: set<Id>, b: set<Id>, own: set<Id>)
    requires Grows(s, t, a) && Grows(t, u, b)
    requires a <= own && forall x :: x in b && x in s.modules ==> x in own
    ensures Grows(s, u, own)
  {
    forall k | |s.h.log| <= k < |u.h.log| ensures !IsComplete(s.modules, u.h.log[k]) {
      if k < |t.h.log| { assert u.h.log[k] == t.h.log[k]; }
    }
  }

  /** What only ever gets more, and what stays empty: faults, requests and completions are
      remembered, a complete module gets no new waiters, and a resource that was passed
      on to its plugin stays so. */
  ghost predicate Since(s: State, t: State)
  {
    && s.h.faults <= t.h.faults && s.h.done <= t.h.done && s.h.starts <= t.h.starts && s.h.called <= t.h.called
    && s.h.woken <= t.h.woken
    && s.h.requests <= t.h.requests
    && (forall q :: q in s.h.vias ==> q in t.h.vias && t.h.vias[q] == s.h.vias[q])
    && (forall r, p :: PassedOn(s, r, p) ==> PassedOn(t, r, p))
    && (forall m :: m in s.modules && m in t.modules && s.modules[m].dependencies.Released? ==>
          t.modules[m].dependencies.Released?)
    && (forall d :: IsComplete(s.modules, d) && Waiters(s.inverse, d) == [] ==> Waiters(t.inverse, d) == [])
    && (forall p :: IsComplete(s.modules, p) && PluginWaiters(s.plugins, p) == [] ==> PluginWaiters(t.plugins, p) == [])
  }

  lemma SinceTrans(s: State, t: State, u: State)
    requires Since(s, t) && Since(t, u) && s.modules.Keys <= t.modules.Keys
    requires forall m :: IsComplete(s.modules, m) ==> IsComplete(t.modules, m)
    ensures Since(s, u)
  {
  }

  // ------------------------------------------------------------ counting lists

  lemma {:induction false} AllWaitersRemove(inverse: Inverse, d: Id)
    requires d in inverse
    ensures AllWaiters(inverse) == multiset(inverse[d]) + AllWaiters(inverse - {d})
    decreases inverse.Keys
  {
    var e :| e in inverse && AllWaiters(inverse) == multiset(inverse[e]) + AllWaiters(inverse - {e});
    if e != d {
      AllWaitersRemove(inverse - {e}, d);
      AllWaitersRemove(inverse - {d}, e);
      assert inverse - {e} - {d} == inverse - {d} - {e};
    }
  }

  lemma AllWaitersPush(inverse: Inverse, d: Id, m: Id)
    ensures AllWaiters(inverse[d := Waiters(inverse, d) + [m]]) == AllWaiters(inverse) + multiset{m}
  {
    var after := inverse[d := Waiters(inverse, d) + [m]];
    AllWaitersRemove(after, d);
    if d in inverse {
      AllWaitersRemove(inverse, d);
      assert after - {d} == inverse - {d};
    } else {
      assert after - {d} == inverse;
    }
  }

  lemma AllWaitersHas(inverse: Inverse, d: Id, m: Id)
    requires m in Waiters(inverse, d)
    ensures m in AllWaiters(inverse)
  {
    AllWaitersRemove(inverse, d);
  }

  lemma {:induction false} AllWaitersFrom(inverse: Inverse, m: Id) returns (d: Id)
    requires m in AllWaiters(inverse)
    ensures d in inverse && m in inverse[d]
    decreases inverse.Keys
  {
    var e :| e in inverse && AllWaiters(inverse) == multiset(inverse[e]) + AllWaiters(inverse - {e});
    if m in inverse[e] { d := e; } else { d := AllWaitersFrom(inverse - {e}, m); }
  }

  // ---------------------------------------------------------- what steps share

  /** Dealing with one more dependency of m, if that is settled, keeps the rest settled. */
  lemma SettledFrame(s: State, t: State, own: set<Id>, m: Id)
    requires Shape(s) && Settled(s) && Grows(s, t, own) && own <= {m}
    requires forall n :: n in t.modules && n !in s.modules ==> t.h.notes[n].next == 0
    requires forall d, x :: x in Waiters(s.inverse, d) ==> x in Waiters(t.inverse, d) || IsComplete(t.modules, d)
    requires m in s.modules ==>
      forall i :: s.h.notes[m].next <= i < t.h.notes[m].next && !Special(t.h.notes[m].declared[i]) ==>
      var d := DepId(t.h.notes[m].declared[i]);
      IsComplete(t.modules, d) || (m, i) in t.h.dropped || m in Waiters(t.inverse, d)
    ensures Settled(t)
  {
    forall n, i | n in t.modules && 0 <= i < t.h.notes[n].next && !Special(t.h.notes[n].declared[i])
      ensures var d := DepId(t.h.notes[n].declared[i]);
              IsComplete(t.modules, d) || (n, i) in t.h.dropped || n in Waiters(t.inverse, d)
    {
      if n in s.modules && i < s.h.notes[n].next {
        assert IsComplete(s.modules, DepId(s.h.notes[n].declared[i])) || (n, i) in s.h.dropped
          || n in Waiters(s.inverse, DepId(s.h.notes[n].declared[i]));
      }
    }
  }

  /** A step that leaves the lists of resources alone keeps them right. */
  lemma OfferedFrame(s: State, t: State)
    requires Offered(s) && t.plugins == s.plugins && t.h.offers == s.h.offers && t.h.resources == s.h.resources
    requires s.modules.Keys <= t.modules.Keys && s.known <= t.known && s.h.providing <= t.h.providing
    requires forall p :: IsComplete(s.modules, p) ==>
      IsComplete(t.modules, p) && (s.modules[p].failed ==> t.modules[p].failed)
    requires forall p :: IsComplete(t.modules, p) ==>
      IsComplete(s.modules, p) || p in t.h.providing || t.modules[p].failed
    requires forall p :: p in t.h.providing ==> p in s.h.providing || IsComplete(t.modules, p)
    requires forall p :: p in s.h.asking ==> p in t.h.asking || p in t.modules || p in t.known
    ensures Offered(t)
  {
  }

  /** Declared dependencies stay declared. */
  ghost predicate Keeping(s: State, t: State)
  {
    && s.h.notes.Keys <= t.h.notes.Keys && forall m :: m in s.h.notes ==> t.h.notes[m].declared == s.h.notes[m].declared
  }

  lemma TimedFrame(s: State, t: State)
    requires Timed(s) && Keeping(s, t) && s.modules.Keys <= s.h.notes.Keys && s.h.dropped <= t.h.dropped
    requires t.h.log == s.h.log && t.h.done == s.h.done && t.h.starts == s.h.starts
    requires forall m :: IsComplete(t.modules, m) <==> IsComplete(s.modules, m)
    ensures Timed(t)
  {
    forall k, i | 0 <= k < |t.h.log| && t.h.log[k] in t.h.notes
      ensures InTime(t.h.notes[t.h.log[k]].declared, t.h.dropped, t.h.log[k], i, Earlier(t.h.done, t.h.starts[k]))
    {
      assert s.h.log[k] in s.h.done;
      assert InTime(s.h.notes[s.h.log[k]].declared, s.h.dropped, s.h.log[k], i, Earlier(s.h.done, s.h.starts[k]));
    }
  }

  /** One more module becomes complete, with or without starting a factory. */
  lemma LinedMore(done: seq<Id>, starts: seq<int>, log: seq<Id>, m: Id)
    requires Lined(done, starts, log) && m !in done
    ensures Lined(done + [m], starts, log) && Lined(done + [m], starts + [|done|], log + [m])
  {
  }

  lemma ServedMore(notes: map<Id, Note>, dropped: set<(Id, int)>, done: seq<Id>, starts: seq<int>, log: seq<Id>, m: Id)
    requires Lined(done, starts, log) && Served(notes, dropped, done, starts, log)
    ensures Served(notes, dropped, done + [m], starts, log)
  {
    forall k, i | 0 <= k < |log| && log[k] in notes
      ensures InTime(notes[log[k]].declared, dropped, log[k], i, Earlier(done + [m], starts[k]))
    {
      assert InTime(notes[log[k]].declared, dropped, log[k], i, Earlier(done, starts[k]));
      assert (done + [m])[..starts[k]] == done[..starts[k]];
    }
  }

  lemma ServedStart(notes: map<Id, Note>, dropped: set<(Id, int)>, done: seq<Id>, starts: seq<int>, log: seq<Id>, m: Id)
    requires Lined(done, starts, log) && Served(notes, dropped, done, starts, log) && m in notes
    requires forall i :: InTime(notes[m].declared, dropped, m, i, done)
    ensures Served(notes, dropped, done + [m], starts + [|done|], log + [m])
  {
    ServedMore(notes, dropped, done, starts, log, m);
    assert (done + [m])[..|done|] == done;
    hide InTime;
  }

  lemma BlamedFrame(s: State, t: State)
    requires Blamed(s) && Keeping(s, t) && s.h.faults <= t.h.faults
    requires forall m :: m in t.modules && t.modules[m].failed ==>
      (m in s.modules && s.modules[m].failed) || AtFault(t.h.faults, DeclaredGraph(t.h.notes), m)
    ensures Blamed(t)
  {
    forall m | m in t.modules && t.modules[m].failed ensures AtFault(t.h.faults, DeclaredGraph(t.h.notes), m) {
      if m in s.modules && s.modules[m].failed { StillAtFault(s, t, m); }
    }
  }

  lemma StillAtFault(s: State, t: State, m: Id)
    requires Keeping(s, t) && s.h.faults <= t.h.faults && AtFault(s.h.faults, DeclaredGraph(s.h.notes), m)
    ensures AtFault(t.h.faults, DeclaredGraph(t.h.notes), m)
  {
    DeclaredMono(s.h.notes, t.h.notes);
    if m !in s.h.faults {
      var f :| f in s.h.faults && Reaches(DeclaredGraph(s.h.notes), m, f);
      ReachesMono(DeclaredGraph(s.h.notes), DeclaredGraph(t.h.notes), m, f);
    }
  }

  /** A failed dependency is a cause. */
  lemma FaultSpreads(s: State, m: Id, d: Id)
    requires (m, d) in DeclaredGraph(s.h.notes) && AtFault(s.h.faults, DeclaredGraph(s.h.notes), d)
    ensures AtFault(s.h.faults, DeclaredGraph(s.h.notes), m)
  {
    var g := DeclaredGraph(s.h.notes);
    EdgeReaches(g, m, d);
    if d !in s.h.faults {
      var f :| f in s.h.faults && Reaches(g, d, f);
      ReachesTrans(g, m, d, f);
    }
  }

  lemma DeclaredStays(s: State, t: State, dep: Dep)
    requires Keeping(s, t) && DeclaredBy(s.h.notes, dep)
    ensures DeclaredBy(t.h.notes, dep)
  {
    var m :| m in s.h.notes && dep in s.h.notes[m].declared;
    assert dep in t.h.notes[m].declared;
  }

  lemma WantedStays(s: State, t: State, q: Id)
    requires Keeping(s, t) && Wanted(s.h.notes, q)
    ensures Wanted(t.h.notes, q)
  {
    hide Keeping, DeclaredBy;
    if DeclaredBy(s.h.notes, Regular(q)) {
      DeclaredStays(s, t, Regular(q));
    } else {
      var r :| DeclaredBy(s.h.notes, Plugin(r, q));
      DeclaredStays(s, t, Plugin(r, q));
    }
  }

  lemma VouchedStays(s: State, t: State, q: Id, via: Via)
    requires Keeping(s, t) && s.h.done <= t.h.done && Vouched(s.h.notes, s.h.done, q, via)
    ensures Vouched(t.h.notes, t.h.done, q, via)
  {
    hide Keeping, DeclaredBy, Wanted;
    match via
    case ScriptLoader => WantedStays(s, t, q);
    case Provider(p, at) =>
      DeclaredStays(s, t, Plugin(q, p));
      assert t.h.done[..at] == s.h.done[..at];
  }

  lemma SourcedFrame(s: State, t: State)
    requires Sourced(s) && Keeping(s, t) && s.h.done <= t.h.done
    requires forall p :: IsComplete(s.modules, p) ==> IsComplete(t.modules, p)
    requires forall p, dep :: dep in PluginWaiters(t.plugins, p) ==>
      dep in PluginWaiters(s.plugins, p) || (DeclaredBy(t.h.notes, dep) && dep.Plugin? && dep.pluginId == p)
    requires forall dep :: dep in t.h.offers ==>
      dep in s.h.offers || (DeclaredBy(t.h.notes, dep) && dep.Plugin? && IsComplete(t.modules, dep.pluginId))
    requires forall r :: r in t.h.resources ==> r in s.h.resources || exists p :: DeclaredBy(t.h.notes, Plugin(r, p))
    requires forall q :: q in t.h.requests ==>
      Authorised(t.h, q) || (q in s.h.requests && (q in s.h.vias ==> q in t.h.vias && t.h.vias[q] == s.h.vias[q]))
    requires forall q :: q in s.h.requests ==> q in t.h.requests
    requires forall q :: q in t.h.vias ==> q in t.h.requests || q in s.h.vias
    ensures Sourced(t)
  {
    hide Keeping, DeclaredBy, Vouched, IsComplete;
    forall p, dep | dep in PluginWaiters(s.plugins, p) ensures DeclaredBy(t.h.notes, dep) { DeclaredStays(s, t, dep); }
    forall dep | dep in s.h.offers ensures DeclaredBy(t.h.notes, dep) { DeclaredStays(s, t, dep); }
    forall r | r in s.h.resources ensures exists p :: DeclaredBy(t.h.notes, Plugin(r, p)) {
      var p :| DeclaredBy(s.h.notes, Plugin(r, p));
      DeclaredStays(s, t, Plugin(r, p));
    }
    forall q | q in t.h.requests ensures Authorised(t.h, q) {
      if !Authorised(t.h, q) {
        assert Authorised(s.h, q);
        VouchedStays(s, t, q, s.h.vias[q]);
      }
    }
  }

  /** Plugin dependencies dealt with between s and t were dropped, are complete, or are
      about to be passed on. */
  ghost predicate Attended(s: State, t: State)
  {
    forall m, i :: Dealt(t.h.notes, m, i) && !Dealt(s.h.notes, m, i) ==>
      (m, i) in t.h.dropped || (m, i) in t.h.opening || IsComplete(t.modules, t.h.notes[m].declared[i].resourceId)
  }

  /** What was handed over stays so, and what was being passed on now is. */
  ghost predicate HandsOn(s: State, t: State)
  {
    && (forall r, p :: Handed(s, r, p) ==> Handed(t, r, p))
    && (forall m, i :: (m, i) in s.h.opening && (m, i) !in t.h.opening && Dealt(t.h.notes, m, i) ==>
          Handed(t, t.h.notes[m].declared[i].resourceId, t.h.notes[m].declared[i].pluginId))
  }

  lemma ForwardedFrame(s: State, t: State)
    requires Forwarded(s) && Keeping(s, t) && s.h.dropped <= t.h.dropped && Attended(s, t) && HandsOn(s, t)
    ensures Forwarded(t)
  {
    hide PassedOn;
    forall m, i | Dealt(t.h.notes, m, i) && (m, i) !in t.h.dropped && (m, i) !in t.h.opening
      ensures Handed(t, t.h.notes[m].declared[i].resourceId, t.h.notes[m].declared[i].pluginId)
    {
      if Dealt(s.h.notes, m, i) && (m, i) !in s.h.opening {
        assert Handed(s, s.h.notes[m].declared[i].resourceId, s.h.notes[m].declared[i].pluginId);
      }
    }
  }

  /** A step that completes nothing, fails nothing and requests nothing. */
  ghost predicate Untraced(s: State, t: State)
  {
    && s.modules.Keys <= s.h.notes.Keys && Keeping(s, t) && s.h.dropped <= t.h.dropped
    && t.h.log == s.h.log && t.h.done == s.h.done && t.h.starts == s.h.starts && t.h.faults == s.h.faults
    && t.plugins == s.plugins && t.h.offers == s.h.offers && t.h.resources == s.h.resources
    && t.h.requests == s.h.requests && t.h.vias == s.h.vias
    && (forall m :: IsComplete(t.modules, m) <==> IsComplete(s.modules, m))
    && (forall m :: m in t.modules && t.modules[m].failed ==> m in s.modules && s.modules[m].failed)
  }

  /** Nothing is forgotten of what was passed on. */
  ghost predicate Onward(s: State, t: State)
  {
    && s.modules.Keys <= t.modules.Keys && s.known <= t.known && s.h.opening <= t.h.opening
    && t.plugins == s.plugins && t.h.offers == s.h.offers
    && (forall m :: IsComplete(s.modules, m) ==> IsComplete(t.modules, m))
  }

  lemma OnwardHands(s: State, t: State)
    requires Onward(s, t)
    ensures HandsOn(s, t)
  {
  }

  lemma TracedFrame(s: State, t: State)
    requires Traced(s) && Untraced(s, t) && Onward(s, t) && Attended(s, t) && Flagged(t)
    ensures Traced(t)
  {
    hide Timed, Blamed, Sourced, Keeping, HandsOn, Attended, Forwarded;
    TimedFrame(s, t);
    BlamedFrame(s, t);
    SourcedFrame(s, t);
    OnwardHands(s, t);
    ForwardedFrame(s, t);
  }

  /** More listed dependencies, more live edges. */
  lemma LiveMono(a: Modules, b: Modules)
    requires a.Keys <= b.Keys
    requires forall m :: m in a && a[m].dependencies.Listed? ==> b[m].dependencies == a[m].dependencies
    ensures LiveGraph(a) <= LiveGraph(b)
  {
    forall e | e in LiveGraph(a) ensures e in LiveGraph(b) {
      var m, d :| m in a && a[m].dependencies.Listed? && d in a[m].dependencies.list && e == (m, DepId(d));
      assert d in b[m].dependencies.list;
    }
  }

  lemma DeclaredMono(a: map<Id, Note>, b: map<Id, Note>)
    requires a.Keys <= b.Keys
    requires forall m :: m in a ==> b[m].declared == a[m].declared
    ensures DeclaredGraph(a) <= DeclaredGraph(b)
  {
    forall e | e in DeclaredGraph(a) ensures e in DeclaredGraph(b) {
      var m, d :| m in a && d in a[m].declared && e == (m, DepId(d));
      assert d in b[m].declared;
    }
  }

  /** Growing without starting a factory or dropping an edge keeps the log in order. */
  lemma SafeFrame(s: State, t: State, own: set<Id>)
    requires Shape(s) && Shape(t) && DropsOnCycles(s) && Logged(s)
    requires Grows(s, t, own)
    requires t.h.log == s.h.log
    requires forall m, i :: (m, i) in t.h.dropped && (m, i) !in s.h.dropped ==>
      && m in s.modules && 0 <= i < t.h.notes[m].next
      && Reaches(DeclaredGraph(s.h.notes), DepId(t.h.notes[m].declared[i]), m)
    requires forall m :: m in s.modules ==> t.h.notes[m].next >= s.h.notes[m].next
    ensures DropsOnCycles(t) && Logged(t)
  {
    DeclaredMono(s.h.notes, t.h.notes);
    forall m, i | (m, i) in t.h.dropped
      ensures m in t.modules && 0 <= i < t.h.notes[m].next
      ensures Reaches(DeclaredGraph(t.h.notes), DepId(t.h.notes[m].declared[i]), m)
    {
      ReachesMono(DeclaredGraph(s.h.notes), DeclaredGraph(t.h.notes), DepId(t.h.notes[m].declared[i]), m);
    }
  }

  // ------------------------------------------------------------ atomic updates

  /** A new module record; its `_resolve` is about to start. */
  function Define(s: State, m: Id, deps: seq<Dep>, callback: Callback, errorback: bool): State
  {
    s.(modules := s.modules[m := Module(Listed(deps), callback, errorback, |deps|, false, false)],
       h := s.h.(notes := s.h.notes[m := Note(deps, callback, errorback, 0)], busy := s.h.busy + {m}))
  }

  lemma DefineLedger(s: State, m: Id, deps: seq<Dep>, callback: Callback, errorback: bool)
    requires Ledger(s) && m !in s.modules
    ensures Ledger(Define(s, m, deps, callback, errorback))
  {
  }

  lemma DefineGrows(s: State, m: Id, deps: seq<Dep>, callback: Callback, errorback: bool)
    requires Ledger(s) && m !in s.modules
    ensures Grows(s, Define(s, m, deps, callback, errorback), {})
  {
    DefineLedger(s, m, deps, callback, errorback);
  }

  lemma DefineKeeps(s: State, m: Id, deps: seq<Dep>, callback: Callback, errorback: bool)
    requires Inv(s) && m !in s.modules
    ensures var t := Define(s, m, deps, callback, errorback); Inv(t) && Grows(s, t, {})
  {
    hide Shape, Settled, Counted, Alert, Finished, Logged, DropsOnCycles, Offered, Grown, Traced;
    var t := Define(s, m, deps, callback, errorback);
    DefineLedger(s, m, deps, callback, errorback);
    DefineGrows(s, m, deps, callback, errorback);
    SettledFrame(s, t, {}, m);
    LiveMono(s.modules, t.modules);
    SafeFrame(s, t, {});
    DefineOffered(s, m, deps, callback, errorback);
    TracedOf(s);
    DefineTraced(s, m, deps, callback, errorback);
  }

  lemma DefineTraced(s: State, m: Id, deps: seq<Dep>, callback: Callback, errorback: bool)
    requires Traced(s) && s.modules.Keys == s.h.notes.Keys && m !in s.modules
    ensures Traced(Define(s, m, deps, callback, errorback))
  {
    hide Timed, Blamed, Sourced, Forwarded;
    TracedFrame(s, Define(s, m, deps, callback, errorback));
  }

  lemma DefineOffered(s: State, m: Id, deps: seq<Dep>, callback: Callback, errorback: bool)
    requires Offered(s) && m !in s.modules
    ensures Offered(Define(s, m, deps, callback, errorback))
  {
    OfferedFrame(s, Define(s, m, deps, callback, errorback));
  }

  /** `_resolve` is at dependency `next` of m. */
  ghost predicate Resolving(s: State, m: Id)
    requires Shape(s)
  {
    m in s.modules && m in s.h.busy && s.h.notes[m].next < |s.h.notes[m].declared|
  }

  function Current(s: State, m: Id): Dep
    requires m in s.h.notes && 0 <= s.h.notes[m].next < |s.h.notes[m].declared|
  {
    s.h.notes[m].declared[s.h.notes[m].next]
  }

  function Advance(s: State, m: Id): map<Id, Note>
    requires m in s.h.notes
  {
    s.h.notes[m := s.h.notes[m].(next := s.h.notes[m].next + 1)]
  }

  /** A special or completed dependency: one thing less to wait for. */
  function Skip(s: State, m: Id): State
    requires m in s.modules && m in s.h.notes
  {
    s.(modules := s.modules[m := s.modules[m].(unresolved := s.modules[m].unresolved - 1)],
       h := s.h.(notes := Advance(s, m)))
  }

  lemma SkipLedger(s: State, m: Id)
    requires Ledger(s) && Resolving(s, m)
    ensures Ledger(Skip(s, m)) && Grows(s, Skip(s, m), {m})
  {
  }

  lemma SkipListing(s: State, m: Id)
    requires Ledger(s) && Listing(s) && Resolving(s, m)
    requires Special(Current(s, m)) || IsComplete(s.modules, DepId(Current(s, m)))
    ensures Shape(Skip(s, m)) && Listing(Skip(s, m))
  {
    hide Counted, Alert, Finished;
    SkipLedger(s, m);
    SettledFrame(s, Skip(s, m), {m}, m);
  }

  lemma SkipKeeps(s: State, m: Id)
    requires Inv(s) && Resolving(s, m)
    requires Special(Current(s, m)) || IsComplete(s.modules, DepId(Current(s, m)))
    ensures Inv(Skip(s, m)) && Grows(s, Skip(s, m), {m})
  {
    hide Settled, Counted, Alert, Finished, Logged, DropsOnCycles, Offered, Woken, AwaitsPlugin, PluginWaiters,
        Reaches, Acyclic, Grown, Listing, Traced;
    var t := Skip(s, m);
    SkipLedger(s, m);
    SkipListing(s, m);
    LiveMono(s.modules, t.modules);
    SafeFrame(s, t, {m});
    SkipOffered(s, m);
    SkipTraced(s, m);
  }

  lemma SkipTraced(s: State, m: Id)
    requires Traced(s) && s.modules.Keys == s.h.notes.Keys && m in s.modules && m in s.h.notes
    requires 0 <= s.h.notes[m].next < |s.h.notes[m].declared|
    requires Special(Current(s, m)) || IsComplete(s.modules, DepId(Current(s, m)))
    ensures Traced(Skip(s, m))
  {
    hide Timed, Blamed, Sourced, Forwarded;
    TracedFrame(s, Skip(s, m));
  }

  lemma SkipOffered(s: State, m: Id)
    requires Offered(s) && m in s.modules && m in s.h.notes
    ensures Offered(Skip(s, m))
  {
    OfferedFrame(s, Skip(s, m));
  }

  /** A dependency that leads back to m: the edge is given up. */
  function Drop(s: State, m: Id): State
    requires m in s.modules && m in s.h.notes
  {
    var t := Skip(s, m);
    t.(cyclic := true, h := t.h.(dropped := t.h.dropped + {(m, s.h.notes[m].next)}))
  }

  lemma DropLedger(s: State, m: Id)
    requires Ledger(s) && Resolving(s, m)
    ensures Ledger(Drop(s, m)) && Grows(s, Drop(s, m), {m})
  {
    SkipLedger(s, m);
  }

  lemma DropListing(s: State, m: Id)
    requires Ledger(s) && Listing(s) && Resolving(s, m)
    ensures Shape(Drop(s, m)) && Listing(Drop(s, m))
  {
    hide Counted, Alert, Finished;
    DropLedger(s, m);
    SettledFrame(s, Drop(s, m), {m}, m);
  }

  lemma DropSafe(s: State, m: Id)
    requires Ledger(s) && Safe(s) && Resolving(s, m)
    requires Reaches(LiveGraph(s.modules), DepId(Current(s, m)), m)
    ensures Shape(Drop(s, m)) && Safe(Drop(s, m))
  {
    hide Counted, Alert, Finished, Logged, Grown, Reaches;
    var t := Drop(s, m);
    DropLedger(s, m);
    LiveIsDeclared(s);
    ReachesMono(LiveGraph(s.modules), DeclaredGraph(s.h.notes), DepId(Current(s, m)), m);
    SafeFrame(s, t, {m});
  }

  lemma DropKeeps(s: State, m: Id)
    requires Inv(s) && Resolving(s, m)
    requires Reaches(LiveGraph(s.modules), DepId(Current(s, m)), m)
    ensures Inv(Drop(s, m)) && Grows(s, Drop(s, m), {m})
  {
    hide Settled, Counted, Alert, Finished, Logged, DropsOnCycles, Grown, Offered, Traced;
    DropLedger(s, m);
    DropSafe(s, m);
    DropListing(s, m);
    LiveMono(s.modules, Drop(s, m).modules);
    DropOffered(s, m);
    DropTraced(s, m);
  }

  lemma DropTraced(s: State, m: Id)
    requires Traced(s) && s.modules.Keys == s.h.notes.Keys && m in s.modules && m in s.h.notes
    ensures Traced(Drop(s, m))
  {
    hide Timed, Blamed, Sourced, Forwarded;
    TracedFrame(s, Drop(s, m));
  }

  lemma DropOffered(s: State, m: Id)
    requires Offered(s) && m in s.modules && m in s.h.notes
    ensures Offered(Drop(s, m))
  {
    OfferedFrame(s, Drop(s, m));
  }

  lemma LiveIsDeclared(s: State)
    requires Shape(s)
    ensures LiveGraph(s.modules) <= DeclaredGraph(s.h.notes)
  {
    forall e | e in LiveGraph(s.modules) ensures e in DeclaredGraph(s.h.notes) {
      var m, d :| m in s.modules && s.modules[m].dependencies.Listed? && d in s.modules[m].dependencies.list
        && e == (m, DepId(d));
      assert d in s.h.notes[m].declared;
    }
  }

  /** A dependency to wait for: m joins its list. */
  function Record(s: State, m: Id): State
    requires m in s.h.notes && 0 <= s.h.notes[m].next < |s.h.notes[m].declared|
  {
    var d := DepId(Current(s, m));
    s.(inverse := s.inverse[d := Waiters(s.inverse, d) + [m]],
       h := s.h.(notes := Advance(s, m), due := s.h.due + multiset{m}, asking := s.h.asking + {d},
                 opening := s.h.opening + Opens(s, m)))
  }

  /** The dependency m is at, if it is one of a plugin. */
  function Opens(s: State, m: Id): set<(Id, int)>
    requires m in s.h.notes && 0 <= s.h.notes[m].next < |s.h.notes[m].declared|
  {
    if Current(s, m).Plugin? then {(m, s.h.notes[m].next)} else {}
  }

  lemma RecordLedger(s: State, m: Id)
    requires Ledger(s) && Resolving(s, m)
    ensures Ledger(Record(s, m)) && Grows(s, Record(s, m), {m})
  {
  }

  lemma RecordListing(s: State, m: Id)
    requires Ledger(s) && Listing(s) && Resolving(s, m)
    requires !IsComplete(s.modules, DepId(Current(s, m)))
    ensures Shape(Record(s, m)) && Listing(Record(s, m))
  {
    hide Counted, Alert, Finished;
    RecordLedger(s, m);
    SettledFrame(s, Record(s, m), {m}, m);
  }

  lemma RecordOrdered(s: State, m: Id)
    requires Ledger(s) && Ordered(s) && Resolving(s, m)
    requires !Reaches(LiveGraph(s.modules), DepId(Current(s, m)), m)
    ensures Ordered(Record(s, m))
  {
    var d, t := DepId(Current(s, m)), Record(s, m);
    AllWaitersPush(s.inverse, d, m);
    assert s.modules[m].dependencies.Listed?;
    assert (m, d) in LiveGraph(s.modules);
    hide Shape, Counted, Alert, Finished;
    WaitGraphPush(s.inverse, d, m);
    EdgeReaches(LiveGraph(s.modules), m, d);
    if Reaches(WaitGraph(s.inverse), d, m) { ReachesMono(WaitGraph(s.inverse), LiveGraph(s.modules), d, m); }
    AddEdgeKeepsAcyclic(WaitGraph(s.inverse), m, d);
  }

  lemma WaitGraphPush(inverse: Inverse, d: Id, m: Id)
    ensures WaitGraph(inverse[d := Waiters(inverse, d) + [m]]) == WaitGraph(inverse) + {(m, d)}
  {
    var after := inverse[d := Waiters(inverse, d) + [m]];
    forall e | e in WaitGraph(after) ensures e in WaitGraph(inverse) + {(m, d)} {
      assert e.1 in after && e.0 in after[e.1];
    }
    forall e | e in WaitGraph(inverse) + {(m, d)} ensures e in WaitGraph(after) {
      assert e.1 in after && e.0 in after[e.1];
    }
  }

  lemma RecordKeeps(s: State, m: Id)
    requires Inv(s) && Resolving(s, m)
    requires !IsComplete(s.modules, DepId(Current(s, m)))
    requires !Reaches(LiveGraph(s.modules), DepId(Current(s, m)), m)
    ensures Inv(Record(s, m)) && Grows(s, Record(s, m), {m})
  {
    hide Settled, Counted, Alert, Finished, Logged, DropsOnCycles, Ordered, Offered, Traced;
    var t := Record(s, m);
    RecordLedger(s, m);
    RecordListing(s, m);
    RecordOrdered(s, m);
    SafeFrame(s, t, {m});
    RecordOffered(s, m);
    RecordTraced(s, m);
  }

  lemma RecordTraced(s: State, m: Id)
    requires Traced(s) && s.modules.Keys == s.h.notes.Keys
    requires m in s.h.notes && 0 <= s.h.notes[m].next < |s.h.notes[m].declared|
    ensures Traced(Record(s, m))
  {
    hide Timed, Blamed, Sourced, Forwarded;
    TracedFrame(s, Record(s, m));
  }

  lemma RecordOffered(s: State, m: Id)
    requires Offered(s) && m in s.h.notes && 0 <= s.h.notes[m].next < |s.h.notes[m].declared|
    ensures Offered(Record(s, m))
  {
    OfferedFrame(s, Record(s, m));
  }

  /** A load error reaches m, and its errorback, if it has one. */
  function Fail(s: State, m: Id): State
    requires m in s.modules
  {
    s.(modules := s.modules[m := s.modules[m].(complete := true, failed := true)],
       h := s.h.(done := if s.modules[m].complete then s.h.done else s.h.done + [m],
                 called := s.h.called + if s.modules[m].errorback then [m] else []))
  }

  lemma FailLedger(s: State, m: Id)
    requires Ledger(s) && m in s.modules
    ensures Ledger(Fail(s, m)) && Grows(s, Fail(s, m), {})
  {
  }

  lemma FailListing(s: State, m: Id)
    requires Ledger(s) && Listing(s) && m in s.modules
    ensures Shape(Fail(s, m)) && Listing(Fail(s, m))
  {
    hide Counted, Alert, Finished;
    FailLedger(s, m);
    SettledFrame(s, Fail(s, m), {}, m);
  }

  lemma FailKeeps(s: State, m: Id)
    requires Inv(s) && m in s.modules && AtFault(s.h.faults, DeclaredGraph(s.h.notes), m)
    ensures Inv(Fail(s, m)) && Grows(s, Fail(s, m), {})
  {
    hide Settled, Counted, Alert, Finished, Logged, DropsOnCycles, Offered, Traced;
    var t := Fail(s, m);
    FailLedger(s, m);
    FailListing(s, m);
    LiveMono(s.modules, t.modules);
    SafeFrame(s, t, {});
    FailOffered(s, m);
    FailTraced(s, m);
  }

  lemma FailTraced(s: State, m: Id)
    requires Traced(s) && s.modules.Keys == s.h.notes.Keys && m in s.modules
    requires AtFault(s.h.faults, DeclaredGraph(s.h.notes), m)
    ensures Traced(Fail(s, m))
  {
    hide Timed, Blamed, Sourced, AtFault;
    FailTimed(s, m);
    BlamedFrame(s, Fail(s, m));
    SourcedFrame(s, Fail(s, m));
    ForwardedFrame(s, Fail(s, m));
  }

  lemma FailTimed(s: State, m: Id)
    requires Timed(s) && m in s.modules
    ensures Timed(Fail(s, m))
  {
    if !s.modules[m].complete {
      LinedMore(s.h.done, s.h.starts, s.h.log, m);
      ServedMore(s.h.notes, s.h.dropped, s.h.done, s.h.starts, s.h.log, m);
    }
    hide Lined, Served;
  }

  lemma FailOffered(s: State, m: Id)
    requires Offered(s) && m in s.modules
    ensures Offered(Fail(s, m))
  {
    OfferedFrame(s, Fail(s, m));
  }

  /** m is marked complete and its factory, if it has one, starts. */
  function Begin(s: State, m: Id): State
    requires m in s.modules
  {
    s.(modules := s.modules[m := s.modules[m].(complete := true)],
       h := s.h.(running := s.h.running + {m}, providing := s.h.providing + {m},
                 done := s.h.done + [m],
                 log := s.h.log + (if s.modules[m].callback.Factory? then [m] else []),
                 starts := s.h.starts + (if s.modules[m].callback.Factory? then [|s.h.done|] else [])))
  }

  /** Nothing is left that m could wait for. */
  ghost predicate Due0(s: State, m: Id)
    requires Shape(s)
  {
    && m in s.modules
    && s.modules[m].unresolved == 0 && s.h.notes[m].next == |s.h.notes[m].declared|
  }

  lemma BeginLedger(s: State, m: Id)
    requires Ledger(s) && Due0(s, m) && !s.modules[m].complete
    requires forall k :: 0 <= k < |s.h.log| ==> IsComplete(s.modules, s.h.log[k])
    ensures Ledger(Begin(s, m)) && Grows(s, Begin(s, m), {})
  {
  }

  /** Safety of the start of a factory: every dependency is complete or was dropped. */
  lemma BeginReady(s: State, m: Id, i: int)
    requires Inv(s) && Due0(s, m)
    requires 0 <= i < |s.h.notes[m].declared| && !Special(s.h.notes[m].declared[i])
    ensures (m, i) in s.h.dropped || IsComplete(s.modules, DepId(s.h.notes[m].declared[i]))
  {
    var d := DepId(s.h.notes[m].declared[i]);
    if m in Waiters(s.inverse, d) {
      AllWaitersHas(s.inverse, d, m);
      assert false;
    }
  }

  lemma BeginSafe(s: State, m: Id)
    requires Inv(s) && Due0(s, m) && !s.modules[m].complete
    ensures Shape(Begin(s, m)) && Safe(Begin(s, m))
  {
    hide Settled, Counted, Alert, Finished, Woken, Ordered, Grown, Traced, Offered;
    LoggedAreComplete(s);
    BeginLedger(s, m);
    assert Begin(s, m).h.notes == s.h.notes;
  }

  lemma BeginTraced(s: State, m: Id)
    requires Inv(s) && Due0(s, m) && !s.modules[m].complete
    ensures Traced(Begin(s, m))
  {
    hide Timed, Blamed, Sourced, Consistent, Shape;
    TracedOf(s);
    BeginInTime(s, m);
    BeginTimed(s, m);
    BlamedFrame(s, Begin(s, m));
    SourcedFrame(s, Begin(s, m));
    ForwardedFrame(s, Begin(s, m));
  }

  lemma TracedOf(s: State)
    requires Inv(s)
    ensures Traced(s) && s.modules.Keys == s.h.notes.Keys
  {
  }

  lemma BeginInTime(s: State, m: Id)
    requires Inv(s) && Due0(s, m)
    ensures forall i :: InTime(s.h.notes[m].declared, s.h.dropped, m, i, s.h.done)
  {
    TracedOf(s);
    hide Consistent, Lined, Served;
    forall i ensures InTime(s.h.notes[m].declared, s.h.dropped, m, i, s.h.done) {
      if 0 <= i < |s.h.notes[m].declared| && !Special(s.h.notes[m].declared[i]) { BeginReady(s, m, i); }
    }
  }

  lemma BeginTimed(s: State, m: Id)
    requires Timed(s) && m in s.modules && m in s.h.notes && !s.modules[m].complete
    requires forall i :: InTime(s.h.notes[m].declared, s.h.dropped, m, i, s.h.done)
    ensures Timed(Begin(s, m))
  {
    var starting := s.modules[m].callback.Factory?;
    LinedMore(s.h.done, s.h.starts, s.h.log, m);
    if starting {
      ServedStart(s.h.notes, s.h.dropped, s.h.done, s.h.starts, s.h.log, m);
    } else {
      ServedMore(s.h.notes, s.h.dropped, s.h.done, s.h.starts, s.h.log, m);
    }
    assert s.h.starts + [] == s.h.starts && s.h.log + [] == s.h.log;
  }

  lemma LoggedAreComplete(s: State)
    requires Inv(s)
    ensures forall k :: 0 <= k < |s.h.log| ==> IsComplete(s.modules, s.h.log[k])
  {
    assert Logged(s);
  }

  lemma BeginListing(s: State, m: Id)
    requires Ledger(s) && Listing(s) && m in s.modules && Shape(Begin(s, m)) && Grows(s, Begin(s, m), {})
    ensures Listing(Begin(s, m))
  {
    hide Counted, Alert, Finished, Grown;
    SettledFrame(s, Begin(s, m), {}, m);
  }

  lemma BeginOrdered(s: State, m: Id)
    requires Ordered(s) && m in s.modules
    ensures Ordered(Begin(s, m))
  {
    LiveMono(s.modules, Begin(s, m).modules);
  }

  lemma BeginKeeps(s: State, m: Id)
    requires Inv(s) && Due0(s, m) && !s.modules[m].complete
    ensures Inv(Begin(s, m)) && Grows(s, Begin(s, m), {})
  {
    hide Settled, Counted, Alert, Finished, Offered, Logged, DropsOnCycles, Invoked, Ordered, Listing, Grown, Traced;
    LoggedAreComplete(s);
    BeginLedger(s, m);
    BeginSafe(s, m);
    BeginListing(s, m);
    BeginOrdered(s, m);
    BeginOffered(s, m);
    BeginTraced(s, m);
  }

  lemma BeginOffered(s: State, m: Id)
    requires Offered(s) && m in s.modules
    ensures Offered(Begin(s, m))
  {
    OfferedFrame(s, Begin(s, m));
  }

  /** A load error of m has been reported. */
  function Blame(s: State, m: Id): State
  {
    s.(h := s.h.(faults := s.h.faults + {m}))
  }

  lemma BlameKeeps(s: State, m: Id)
    requires Inv(s)
    ensures Inv(Blame(s, m)) && Grows(s, Blame(s, m), {})
  {
    hide Settled, Counted, Alert, Finished, Logged, DropsOnCycles, Ordered, Offered, Traced;
    SameWorkKeeps(s, Blame(s, m));
    OfferedFrame(s, Blame(s, m));
    BlameTraced(s, m);
  }

  lemma BlameTraced(s: State, m: Id)
    requires Traced(s) && s.modules.Keys == s.h.notes.Keys
    ensures Traced(Blame(s, m))
  {
    hide Timed, Blamed, Sourced;
    TimedFrame(s, Blame(s, m));
    BlamedFrame(s, Blame(s, m));
    SourcedFrame(s, Blame(s, m));
    ForwardedFrame(s, Blame(s, m));
  }

  /** The factory returned: the module lets go of what it was defined with. */
  function End(s: State, m: Id, threw: bool): State
    requires m in s.modules
  {
    var r := s.modules[m];
    s.(modules := s.modules[m := r.(dependencies := Released, callback := NoCallback, errorback := false,
      failed := r.failed || threw)],
       h := s.h.(faults := if threw then s.h.faults + {m} else s.h.faults))
  }

  lemma EndLedger(s: State, m: Id, threw: bool)
    requires Ledger(s) && Due0(s, m) && s.modules[m].complete
    ensures Ledger(End(s, m, threw)) && Grows(s, End(s, m, threw), {})
  {
  }

  lemma EndOrdered(s: State, m: Id, threw: bool)
    requires Ledger(s) && Ordered(s) && Due0(s, m)
    ensures Ordered(End(s, m, threw))
  {
    var t := End(s, m, threw);
    assert s.h.due[m] == 0;
    forall e | e in WaitGraph(s.inverse) ensures e in LiveGraph(t.modules) {
      assert e in LiveGraph(s.modules);
      AllWaitersHas(s.inverse, e.1, e.0);
      assert e.0 != m;
      var n, d :| n in s.modules && s.modules[n].dependencies.Listed? && d in s.modules[n].dependencies.list
        && e == (n, DepId(d));
      assert d in t.modules[n].dependencies.list;
    }
  }

  lemma EndKeeps(s: State, m: Id, threw: bool)
    requires Inv(s) && Due0(s, m) && s.modules[m].complete
    ensures Inv(End(s, m, threw)) && Grows(s, End(s, m, threw), {})
  {
    hide Settled, Counted, Alert, Finished, Logged, DropsOnCycles, Ordered, Offered, Tallied, Grown, Traced;
    var t := End(s, m, threw);
    EndLedger(s, m, threw);
    EndOrdered(s, m, threw);
    SettledFrame(s, t, {}, m);
    SafeFrame(s, t, {});
    EndOffered(s, m, threw);
    EndTraced(s, m, threw);
  }

  lemma EndTraced(s: State, m: Id, threw: bool)
    requires Traced(s) && s.modules.Keys == s.h.notes.Keys && m in s.modules && s.modules[m].complete
    ensures Traced(End(s, m, threw))
  {
    hide Timed, Blamed, Sourced;
    var t := End(s, m, threw);
    TimedFrame(s, t);
    BlamedFrame(s, t);
    SourcedFrame(s, t);
    ForwardedFrame(s, t);
  }

  lemma EndOffered(s: State, m: Id, threw: bool)
    requires Offered(s) && m in s.modules
    ensures Offered(End(s, m, threw))
  {
    OfferedFrame(s, End(s, m, threw));
  }

  /** The list of modules waiting for m is taken out, to be walked. */
  function Take(s: State, m: Id): State
  {
    s.(inverse := s.inverse - {m},
       h := s.h.(pending := s.h.pending + multiset(Waiters(s.inverse, m)), running := s.h.running - {m}))
  }

  lemma TakeLedger(s: State, m: Id)
    requires Ledger(s)
    ensures Ledger(Take(s, m)) && Grows(s, Take(s, m), {})
  {
  }

  lemma TakeOrdered(s: State, m: Id)
    requires Ordered(s)
    ensures Ordered(Take(s, m))
  {
    var t := Take(s, m);
    if m in s.inverse { AllWaitersRemove(s.inverse, m); } else { assert t.inverse == s.inverse; }
    forall e | e in WaitGraph(t.inverse) ensures e in WaitGraph(s.inverse) {
      assert e.1 in s.inverse && e.0 in s.inverse[e.1];
    }
    AcyclicMono(WaitGraph(t.inverse), WaitGraph(s.inverse));
  }

  lemma TakeListing(s: State, m: Id)
    requires Ledger(s) && Listing(s) && IsComplete(s.modules, m)
    ensures Shape(Take(s, m)) && Listing(Take(s, m))
  {
    hide Counted, Alert, Finished;
    TakeLedger(s, m);
    SettledFrame(s, Take(s, m), {}, m);
  }

  lemma TakeKeeps(s: State, m: Id)
    requires Inv(s) && IsComplete(s.modules, m)
    ensures Inv(Take(s, m)) && Grows(s, Take(s, m), {})
  {
    hide Settled, Counted, Alert, Finished, Logged, DropsOnCycles, Ordered, Offered, Traced;
    var t := Take(s, m);
    TakeLedger(s, m);
    TakeOrdered(s, m);
    TakeListing(s, m);
    SafeFrame(s, t, {});
    TakeOffered(s, m);
    TakeTraced(s, m);
  }

  lemma TakeTraced(s: State, m: Id)
    requires Traced(s) && s.modules.Keys == s.h.notes.Keys
    ensures Traced(Take(s, m))
  {
    hide Timed, Blamed, Sourced, Forwarded;
    TracedFrame(s, Take(s, m));
  }

  lemma TakeOffered(s: State, m: Id)
    requires Offered(s)
    ensures Offered(Take(s, m))
  {
    OfferedFrame(s, Take(s, m));
  }

  /** The walk reaches waiter x: one thing less for it to wait for. */
  function Wake(s: State, x: Id): State
    requires x in s.modules
  {
    s.(modules := s.modules[x := s.modules[x].(unresolved := s.modules[x].unresolved - 1)],
       h := s.h.(due := s.h.due - multiset{x}, pending := s.h.pending - multiset{x}, busy := s.h.busy + {x},
                 woken := s.h.woken + [x]))
  }

  lemma WakeLedger(s: State, x: Id)
    requires Ledger(s) && x in s.h.due
    ensures Ledger(Wake(s, x)) && Grows(s, Wake(s, x), {})
  {
  }

  lemma WakeOrdered(s: State, x: Id)
    requires Shape(s) && Ordered(s) && x in s.h.pending
    ensures x in s.h.due && x in s.modules && Ordered(Wake(s, x))
  {
    assert x in s.h.due;
    LiveMono(s.modules, Wake(s, x).modules);
  }

  lemma WakeListing(s: State, x: Id)
    requires Ledger(s) && Listing(s) && x in s.h.due
    ensures Shape(Wake(s, x)) && Listing(Wake(s, x))
  {
    hide Counted, Alert, Finished;
    WakeLedger(s, x);
    SettledFrame(s, Wake(s, x), {}, x);
  }

  lemma WakeKeeps(s: State, x: Id)
    requires Inv(s) && x in s.h.pending
    ensures x in s.modules && Inv(Wake(s, x)) && Grows(s, Wake(s, x), {})
  {
    hide Settled, Counted, Alert, Finished, Logged, DropsOnCycles, Ordered, Grown, Offered, Traced;
    WakeOrdered(s, x);
    WakeLedger(s, x);
    var t := Wake(s, x);
    WakeListing(s, x);
    SafeFrame(s, t, {});
    WakeOffered(s, x);
    WakeTraced(s, x);
  }

  lemma WakeTraced(s: State, x: Id)
    requires Traced(s) && s.modules.Keys == s.h.notes.Keys && x in s.modules
    ensures Traced(Wake(s, x))
  {
    hide Timed, Blamed, Sourced, Forwarded;
    TracedFrame(s, Wake(s, x));
  }

  lemma WakeOffered(s: State, x: Id)
    requires Offered(s) && x in s.modules
    ensures Offered(Wake(s, x))
  {
    OfferedFrame(s, Wake(s, x));
  }

  /** Modules are no longer being worked on. */
  function Rest(s: State, busy: set<Id>): State
  {
    s.(h := s.h.(busy := busy))
  }

  lemma RestLedger(s: State, busy: set<Id>)
    requires Ledger(s)
    requires forall m :: m in s.h.busy && m !in busy && m in s.modules ==>
      s.modules[m].complete || (s.h.notes[m].next == |s.h.notes[m].declared| && s.modules[m].unresolved > 0)
    ensures Ledger(Rest(s, busy)) && Grows(s, Rest(s, busy), {})
  {
  }

  lemma RestKeeps(s: State, busy: set<Id>)
    requires Inv(s)
    requires forall m :: m in s.h.busy && m !in busy && m in s.modules ==>
      s.modules[m].complete || (s.h.notes[m].next == |s.h.notes[m].declared| && s.modules[m].unresolved > 0)
    ensures Inv(Rest(s, busy)) && Grows(s, Rest(s, busy), {})
  {
    hide Settled, Counted, Alert, Finished, Logged, DropsOnCycles, Grown, Offered, Acyclic, PluginWaiters, Traced;
    var t := Rest(s, busy);
    RestLedger(s, busy);
    SettledFrame(s, t, {}, 0);
    SafeFrame(s, t, {});
    RestOffered(s, busy);
    RestTraced(s, busy);
  }

  lemma RestTraced(s: State, busy: set<Id>)
    requires Traced(s) && s.modules.Keys == s.h.notes.Keys
    ensures Traced(Rest(s, busy))
  {
    hide Timed, Blamed, Sourced, Forwarded;
    TracedFrame(s, Rest(s, busy));
  }

  lemma RestOffered(s: State, busy: set<Id>)
    requires Offered(s)
    ensures Offered(Rest(s, busy))
  {
    OfferedFrame(s, Rest(s, busy));
  }

  /** The awaited d needs no request: it is there or was requested before. */
  function Ask(s: State, d: Id): State
  {
    s.(h := s.h.(asking := s.h.asking - {d}, opening := {}))
  }

  lemma AskKeeps(s: State, d: Id)
    requires Inv(s) && (d in s.modules || d in s.known) && Entrusted(s, d)
    ensures Inv(Ask(s, d)) && Grows(s, Ask(s, d), {})
  {
    hide Settled, Counted, Alert, Finished, Logged, DropsOnCycles, Ordered, Offered, Traced;
    SameWorkKeeps(s, Ask(s, d));
    AskOffered(s, d);
    AskTraced(s, d);
  }

  lemma AskTraced(s: State, d: Id)
    requires Traced(s) && s.modules.Keys == s.h.notes.Keys && (d in s.modules || d in s.known) && Entrusted(s, d)
    ensures Traced(Ask(s, d))
  {
    hide Timed, Blamed, Sourced;
    TimedFrame(s, Ask(s, d));
    BlamedFrame(s, Ask(s, d));
    SourcedFrame(s, Ask(s, d));
    ForwardedFrame(s, Ask(s, d));
  }

  lemma AskOffered(s: State, d: Id)
    requires Offered(s) && (d in s.modules || d in s.known)
    ensures Offered(Ask(s, d))
  {
    OfferedFrame(s, Ask(s, d));
  }

  /** The plugin dependencies that are being passed on will have been, once plugin d is
      there or requested. */
  ghost predicate Entrusted(s: State, d: Id)
  {
    forall m, i :: (m, i) in s.h.opening && Dealt(s.h.notes, m, i) ==>
      var dep := s.h.notes[m].declared[i]; dep.pluginId == d && KeptOrKnown(s, dep.resourceId, d)
  }

  /** d is requested from the script loader or from a plugin. */
  function Request(s: State, d: Id, via: Via): State
  {
    s.(known := s.known + {d},
       h := s.h.(asking := s.h.asking - {d}, requests := s.h.requests + [d], vias := s.h.vias[d := via],
                 opening := {}))
  }

  lemma RequestKeeps(s: State, d: Id, via: Via)
    requires Inv(s) && d !in s.known && Vouched(s.h.notes, s.h.done, d, via) && Entrusted(s, d)
    ensures Inv(Request(s, d, via)) && Grows(s, Request(s, d, via), {})
  {
    hide Settled, Counted, Alert, Finished, Logged, DropsOnCycles, Ordered, Offered, Traced;
    SameWorkKeeps(s, Request(s, d, via));
    RequestOffered(s, d, via);
    RequestTraced(s, d, via);
  }

  lemma RequestTraced(s: State, d: Id, via: Via)
    requires Traced(s) && s.modules.Keys == s.h.notes.Keys && d !in s.known && d !in s.h.requests
    requires Vouched(s.h.notes, s.h.done, d, via) && Entrusted(s, d)
    ensures Traced(Request(s, d, via))
  {
    hide Timed, Blamed, Sourced, DeclaredBy, Wanted;
    TimedFrame(s, Request(s, d, via));
    BlamedFrame(s, Request(s, d, via));
    SourcedFrame(s, Request(s, d, via));
    ForwardedFrame(s, Request(s, d, via));
  }

  lemma RequestOffered(s: State, d: Id, via: Via)
    requires Offered(s)
    ensures Offered(Request(s, d, via))
  {
    OfferedFrame(s, Request(s, d, via));
  }

  /** If resources wait for r as their plugin, r has been asked for. */
  predicate Reached(s: State, r: Id)
  {
    PluginWaiters(s.plugins, r) == [] || r in s.modules || r in s.known
  }

  lemma AllReached(s: State, r: Id)
    requires Inv(s) && s.h.asking == {}
    ensures Reached(s, r)
  {
    assert Offered(s);
  }

  /** An awaited resource is kept until its plugin is complete; next the plugin
      is asked for. */
  function Enlist(s: State, r: Id, p: Id): State
  {
    s.(plugins := s.plugins[p := PluginWaiters(s.plugins, p) + [Plugin(r, p)]],
       h := s.h.(asking := s.h.asking - {r} + {p}, resources := s.h.resources + {r}))
  }

  lemma EnlistKeeps(s: State, r: Id, p: Id)
    requires Inv(s) && !IsComplete(s.modules, p) && Reached(s, r) && DeclaredBy(s.h.notes, Plugin(r, p))
    ensures Inv(Enlist(s, r, p)) && Grows(s, Enlist(s, r, p), {})
  {
    hide Settled, Counted, Alert, Finished, Logged, DropsOnCycles, Ordered, Offered, Traced;
    SameWorkKeeps(s, Enlist(s, r, p));
    EnlistOffered(s, r, p);
    EnlistTraced(s, r, p);
  }

  lemma EnlistTraced(s: State, r: Id, p: Id)
    requires Traced(s) && s.modules.Keys == s.h.notes.Keys && DeclaredBy(s.h.notes, Plugin(r, p))
    ensures Traced(Enlist(s, r, p))
  {
    hide Timed, Blamed, Sourced, DeclaredBy, Wanted;
    TimedFrame(s, Enlist(s, r, p));
    BlamedFrame(s, Enlist(s, r, p));
    SourcedFrame(s, Enlist(s, r, p));
    ForwardedFrame(s, Enlist(s, r, p));
  }

  lemma EnlistOffered(s: State, r: Id, p: Id)
    requires Offered(s) && !IsComplete(s.modules, p) && Reached(s, r)
    ensures Offered(Enlist(s, r, p))
  {
    var t := Enlist(s, r, p);
    forall z | z in t.h.resources
      ensures z in t.modules || z in t.known || exists q :: AwaitsPlugin(t.plugins, t.h.offers, z, q)
    {
      if z == r {
        assert AwaitsPlugin(t.plugins, t.h.offers, r, p);
      } else if z !in s.modules && z !in s.known {
        var q :| AwaitsPlugin(s.plugins, s.h.offers, z, q);
        assert AwaitsPlugin(t.plugins, t.h.offers, z, q);
      }
    }
  }

  /** What is being passed on is dep. */
  ghost predicate OpeningOnly(s: State, dep: Dep)
  {
    forall m, i :: (m, i) in s.h.opening && Dealt(s.h.notes, m, i) ==> s.h.notes[m].declared[i] == dep
  }

  /** An awaited resource of a complete plugin is about to be asked for. */
  function Offer(s: State, r: Id, p: Id): State
  {
    s.(h := s.h.(asking := s.h.asking - {r}, opening := {}, resources := s.h.resources + {r},
      offers := s.h.offers + multiset{Plugin(r, p)}))
  }

  lemma OfferKeeps(s: State, r: Id, p: Id)
    requires Inv(s) && s.h.asking <= {r} && Reached(s, r) && DeclaredBy(s.h.notes, Plugin(r, p))
    requires IsComplete(s.modules, p) && OpeningOnly(s, Plugin(r, p))
    ensures Inv(Offer(s, r, p)) && Grows(s, Offer(s, r, p), {})
  {
    hide Settled, Counted, Alert, Finished, Logged, DropsOnCycles, Ordered, Offered, Traced;
    SameWorkKeeps(s, Offer(s, r, p));
    OfferOffered(s, r, p);
    OfferTraced(s, r, p);
  }

  lemma OfferTraced(s: State, r: Id, p: Id)
    requires Traced(s) && s.modules.Keys == s.h.notes.Keys && DeclaredBy(s.h.notes, Plugin(r, p))
    requires IsComplete(s.modules, p) && OpeningOnly(s, Plugin(r, p))
    ensures Traced(Offer(s, r, p))
  {
    hide Timed, Blamed, Sourced, DeclaredBy, Wanted;
    TimedFrame(s, Offer(s, r, p));
    BlamedFrame(s, Offer(s, r, p));
    SourcedFrame(s, Offer(s, r, p));
    ForwardedFrame(s, Offer(s, r, p));
  }

  lemma OfferOffered(s: State, r: Id, p: Id)
    requires Offered(s) && s.h.asking <= {r} && Reached(s, r)
    ensures Offered(Offer(s, r, p))
  {
    var t := Offer(s, r, p);
    forall z | z in t.h.resources
      ensures z in t.modules || z in t.known || exists q :: AwaitsPlugin(t.plugins, t.h.offers, z, q)
    {
      if z == r {
        assert AwaitsPlugin(t.plugins, t.h.offers, r, p);
      } else if z !in s.modules && z !in s.known {
        var q :| AwaitsPlugin(s.plugins, s.h.offers, z, q);
        assert AwaitsPlugin(t.plugins, t.h.offers, z, q);
      }
    }
  }

  /** The list of resources waiting for plugin p is taken out, to be walked. */
  function Fetch(s: State, p: Id): State
  {
    s.(plugins := s.plugins - {p},
       h := s.h.(offers := s.h.offers + multiset(PluginWaiters(s.plugins, p)), providing := s.h.providing - {p}))
  }

  lemma FetchKeeps(s: State, p: Id)
    requires Inv(s) && IsComplete(s.modules, p)
    ensures Inv(Fetch(s, p)) && Grows(s, Fetch(s, p), {})
  {
    hide Settled, Counted, Alert, Finished, Logged, DropsOnCycles, Ordered, Offered, Traced;
    SameWorkKeeps(s, Fetch(s, p));
    FetchOffered(s, p);
    FetchTraced(s, p);
  }

  lemma FetchTraced(s: State, p: Id)
    requires Traced(s) && s.modules.Keys == s.h.notes.Keys && IsComplete(s.modules, p)
    ensures Traced(Fetch(s, p))
  {
    hide Timed, Blamed, DeclaredBy, Wanted;
    TimedFrame(s, Fetch(s, p));
    BlamedFrame(s, Fetch(s, p));
    SourcedFrame(s, Fetch(s, p));
    ForwardedFrame(s, Fetch(s, p));
  }

  lemma FetchOffered(s: State, p: Id)
    requires Offered(s)
    ensures Offered(Fetch(s, p))
  {
    var t := Fetch(s, p);
    forall z | z in t.h.resources
      ensures z in t.modules || z in t.known || exists q :: AwaitsPlugin(t.plugins, t.h.offers, z, q)
    {
      if z !in s.modules && z !in s.known {
        var q :| AwaitsPlugin(s.plugins, s.h.offers, z, q);
        assert AwaitsPlugin(t.plugins, t.h.offers, z, q);
      }
    }
  }

  /** A resource has been asked for. */
  function Grant(s: State, dep: Dep): State
  {
    s.(h := s.h.(offers := s.h.offers - multiset{dep}))
  }

  lemma GrantKeeps(s: State, dep: Dep)
    requires Inv(s) && (DepId(dep) in s.modules || DepId(dep) in s.known)
    ensures Inv(Grant(s, dep)) && Grows(s, Grant(s, dep), {})
  {
    hide Settled, Counted, Alert, Finished, Logged, DropsOnCycles, Ordered, Offered, Traced;
    SameWorkKeeps(s, Grant(s, dep));
    GrantOffered(s, dep);
    GrantTraced(s, dep);
  }

  lemma GrantTraced(s: State, dep: Dep)
    requires Traced(s) && s.modules.Keys == s.h.notes.Keys && (DepId(dep) in s.modules || DepId(dep) in s.known)
    ensures Traced(Grant(s, dep))
  {
    hide Timed, Blamed, Sourced, DeclaredBy, Wanted;
    TimedFrame(s, Grant(s, dep));
    BlamedFrame(s, Grant(s, dep));
    SourcedFrame(s, Grant(s, dep));
    ForwardedFrame(s, Grant(s, dep));
  }

  lemma GrantOffered(s: State, dep: Dep)
    requires Offered(s) && (DepId(dep) in s.modules || DepId(dep) in s.known)
    ensures Offered(Grant(s, dep))
  {
    var t := Grant(s, dep);
    forall z | z in t.h.resources
      ensures z in t.modules || z in t.known || exists q :: AwaitsPlugin(t.plugins, t.h.offers, z, q)
    {
      if z !in s.modules && z !in s.known {
        var q :| AwaitsPlugin(s.plugins, s.h.offers, z, q);
        assert Plugin(z, q) != dep;
        assert AwaitsPlugin(t.plugins, t.h.offers, z, q);
      }
    }
  }

  /** States that differ only in what is requested, or kept for plugins. */
  ghost predicate SameWork(s: State, t: State)
  {
    && t.modules == s.modules && t.inverse == s.inverse && t.h.notes == s.h.notes && t.h.dropped == s.h.dropped
    && t.h.done == s.h.done && t.h.starts == s.h.starts && t.h.due == s.h.due
    && t.h.pending == s.h.pending && t.h.busy == s.h.busy && t.h.running == s.h.running
    && t.h.log == s.h.log && t.cyclic == s.cyclic
  }

  lemma SameWorkKeeps(s: State, t: State)
    requires Ledger(s) && Listing(s) && Ordered(s) && Safe(s) && SameWork(s, t) && s.known <= t.known
    ensures Ledger(t) && Listing(t) && Ordered(t) && Safe(t) && Grows(s, t, {})
  {
    hide Settled, Counted, Alert, Finished, Logged, DropsOnCycles, Ordered;
    SameLedger(s, t);
    SettledFrame(s, t, {}, 0);
    SafeFrame(s, t, {});
    SameOrdered(s, t);
  }

  lemma SameLedger(s: State, t: State)
    requires Ledger(s) && SameWork(s, t) && s.known <= t.known
    ensures Ledger(t) && Grows(s, t, {})
  {
  }

  lemma SameOrdered(s: State, t: State)
    requires Ordered(s) && SameWork(s, t)
    ensures Ordered(t)
  {
  }
}
