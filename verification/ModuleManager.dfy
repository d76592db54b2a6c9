/** The AMD module manager. Foreign code (factories, errorbacks, the script
    loader, plugins) runs in the middle of its methods and may call back into
    them; it is an adversary that reads what it does off a finite script. */
module ModuleManagers {
  import opened Graphs
  import opened LoaderState

  /** What foreign code can do: define a module, report that a script could not
      be loaded, or return (a factory may throw instead). */
  datatype Action =
    | DefineAction(id: Id, deps: seq<Dep>, callback: Callback, errorback: bool)
    | LoadErrorAction(failedId: Id)
    | Return(threw: bool)

  /** The bookkeeping of suspended calls. */
  datatype Stack = Stack(pending: multiset<Id>, busy: set<Id>, running: set<Id>, providing: set<Id>,
    offers: multiset<Dep>)

  function StackOf(s: State): Stack
  {
    Stack(s.h.pending, s.h.busy, s.h.running, s.h.providing, s.h.offers)
  }

  /** While m completes, its waiters and its resources are still to be seen to. */
  function Completing(s: State, m: Id): Stack
  {
    StackOf(s).(running := s.h.running + {m}, providing := s.h.providing + {m})
  }

  /** The actions read off the script when n was to come and k is left. */
  function Consumed(n: seq<Action>, k: seq<Action>): seq<Action>
  {
    if |k| <= |n| then n[..|n| - |k|] else []
  }

  ghost predicate Tail(k: seq<Action>, n: seq<Action>)
  {
    |k| <= |n| && n[|n| - |k|..] == k
  }

  /** Foreign code returned without calling in. */
  predicate Silent(c: seq<Action>)
  {
    forall a :: a in c ==> a.Return?
  }

  /** Foreign code calls nothing before it returns. */
  predicate ReturnsAtOnce(n: seq<Action>)
  {
    n == [] || n[0].Return?
  }

  /** The last action taken lets foreign code return, or throw. */
  predicate EndsIn(n: seq<Action>, k: seq<Action>, threw: bool)
  {
    |k| < |n| && n[|n| - |k| - 1] == Return(threw)
  }

  predicate ThrowsAtOnce(n: seq<Action>)
  {
    n != [] && n[0] == Return(true)
  }

  /** Module m is as one of the actions says: defined, or made up for a load error. */
  predicate Introduced(c: seq<Action>, m: Id, note: Note)
  {
    || DefineAction(m, note.declared, note.origin, note.handler) in c
    || (LoadErrorAction(m) in c && note.declared == [])
  }

  predicate Introduces(t: State, c: seq<Action>, m: Id)
  {
    m in t.h.notes && Introduced(c, m, t.h.notes[m])
  }

  /** The actions report a load error of f, or let a factory throw, f's having run. */
  predicate Accused(c: seq<Action>, log: seq<Id>, f: Id)
  {
    LoadErrorAction(f) in c || (Return(true) in c && f in log)
  }

  /** From s to t no module appears and nothing is at fault but by the actions c, and
      whatever they define is there, and failed if they reported its load error. */
  ghost predicate Explained(s: State, t: State, c: seq<Action>)
  {
    Derived(s, t, c) && Reported(t, c)
  }

  ghost predicate Reported(t: State, c: seq<Action>)
  {
    forall f :: LoadErrorAction(f) in c ==> f in t.modules && t.modules[f].failed && f in t.h.faults
  }

  ghost predicate Derived(s: State, t: State, c: seq<Action>)
  {
    && (forall m :: m in t.modules && m !in s.modules ==> Introduces(t, c, m))
    && (forall f :: f in t.h.faults && f !in s.h.faults ==> Accused(c, t.h.log, f))
    && (forall a :: a in c && a.DefineAction? ==> a.id in t.modules)
  }

  /** A stretch of execution from s, with the actions n to come, to t, with k to
      come: the invariant holds, only modules in `own` had dependencies dealt with,
      the suspended calls are at `stack`, and the actions in between explain what
      is new. */
  ghost function Outcomes(s: State, n: seq<Action>, k: seq<Action>, own: set<Id>, stack: Stack): iset<State>
  {
    iset t: State |
      && Inv(t) && Grows(s, t, own) && Unasked(t) && StackOf(t) == stack
      && Since(s, t) && Tail(k, n) && Explained(s, t, Consumed(n, k))
  }

  /** What dealing with one dependency of m does: it is counted off, fails m, is given up
      because it leads back, or is waited for and asked for. */
  ghost predicate DealtWith(s: State, n: seq<Action>, m: Id, dep: Dep, stop: bool, t: State, k: seq<Action>)
    requires m in s.modules && m in s.h.notes && 0 <= s.h.notes[m].next < |s.h.notes[m].declared| && m in t.modules
  {
    var d := DepId(dep);
    if Special(dep) || (IsComplete(s.modules, d) && !s.modules[d].failed) then
      !stop && t == Skip(s, m) && k == n
    else if IsComplete(s.modules, d) then
      stop && t.modules[m].failed
    else if Reaches(LiveGraph(s.modules), d, m) then
      !stop && t == Drop(s, m) && k == n
    else
      && !stop && t in Outcomes(Record(s, m), n, k, {}, StackOf(s)) && AskedFor(t, dep)
  }

  /** A dependency that is waited for is there or was requested, or was passed on to its
      plugin. */
  predicate AskedFor(t: State, dep: Dep)
  {
    match dep
    case Regular(id) => id in t.modules || id in t.known
    case Plugin(id, pluginId) => PassedOn(t, id, pluginId)
    case _ => true
  }

  /** The states in which foreign code may call in. */
  ghost function Good(): iset<State>
  {
    iset s: State | Inv(s) && Unasked(s)
  }

  /** The dependency m is at has been dealt with, one way or another. */
  ghost predicate Stepped(s: State, n: seq<Action>, m: Id, dep: Dep, stop: bool, t: State, k: seq<Action>)
  {
    && m in s.modules && m in s.h.notes && 0 <= s.h.notes[m].next < |s.h.notes[m].declared|
    && m in t.modules && m in t.h.notes && t.h.notes[m].declared == s.h.notes[m].declared
    && (if stop then t.modules[m].complete else t.h.notes[m].next == s.h.notes[m].next + 1)
    && DealtWith(s, n, m, dep, stop, t, k)
  }

  lemma SkipDeals(s: State, n: seq<Action>, m: Id, dep: Dep)
    requires m in s.modules && m in s.h.notes && 0 <= s.h.notes[m].next < |s.h.notes[m].declared|
    requires Special(dep) || (IsComplete(s.modules, DepId(dep)) && !s.modules[DepId(dep)].failed)
    ensures Stepped(s, n, m, dep, false, Skip(s, m), n)
  {
  }

  lemma FailDeals(s: State, n: seq<Action>, m: Id, dep: Dep, t: State, k: seq<Action>)
    requires m in s.modules && m in s.h.notes && 0 <= s.h.notes[m].next < |s.h.notes[m].declared|
    requires !Special(dep) && IsComplete(s.modules, DepId(dep)) && s.modules[DepId(dep)].failed
    requires m in t.modules && m in t.h.notes && t.h.notes[m].declared == s.h.notes[m].declared
    requires t.modules[m].complete && t.modules[m].failed
    ensures Stepped(s, n, m, dep, true, t, k)
  {
  }

  lemma DropDeals(s: State, n: seq<Action>, m: Id, dep: Dep)
    requires m in s.modules && m in s.h.notes && 0 <= s.h.notes[m].next < |s.h.notes[m].declared|
    requires !Special(dep) && !IsComplete(s.modules, DepId(dep)) && Reaches(LiveGraph(s.modules), DepId(dep), m)
    ensures Stepped(s, n, m, dep, false, Drop(s, m), n)
  {
  }

  lemma WaitDeals(s: State, n: seq<Action>, m: Id, dep: Dep, t: State, k: seq<Action>)
    requires m in s.modules && m in s.h.notes && 0 <= s.h.notes[m].next < |s.h.notes[m].declared|
    requires !Special(dep) && !IsComplete(s.modules, DepId(dep)) && !Reaches(LiveGraph(s.modules), DepId(dep), m)
    requires m in t.modules && m in t.h.notes && t.h.notes[m].declared == s.h.notes[m].declared
    requires t.h.notes[m].next == s.h.notes[m].next + 1
    requires t in Outcomes(Record(s, m), n, k, {}, StackOf(s)) && AskedFor(t, dep)
    ensures Stepped(s, n, m, dep, false, t, k)
  {
    hide Outcomes;
  }

  lemma ConsumedNone(n: seq<Action>)
    ensures Tail(n, n) && Consumed(n, n) == []
  {
  }

  lemma ConsumedTrans(n: seq<Action>, k: seq<Action>, l: seq<Action>)
    requires Tail(k, n) && Tail(l, k)
    ensures Tail(l, n) && Consumed(n, l) == Consumed(n, k) + Consumed(k, l)
  {
    assert n == n[..|n| - |k|] + k;
  }

  lemma SilentTrans(n: seq<Action>, k: seq<Action>, l: seq<Action>)
    requires Tail(k, n) && Tail(l, k)
    ensures Tail(l, n) && (Silent(Consumed(n, l)) <==> Silent(Consumed(n, k)) && Silent(Consumed(k, l)))
  {
    ConsumedTrans(n, k, l);
  }

  lemma ConsumedFirst(a: Action, n: seq<Action>, k: seq<Action>)
    requires Tail(k, n)
    ensures Tail(k, [a] + n) && Consumed([a] + n, k) == [a] + Consumed(n, k)
  {
    assert ([a] + n)[|n| + 1 - |k|..] == n[|n| - |k|..];
  }

  lemma Called(s: State, n: seq<Action>, t: State, k: seq<Action>, own: set<Id>, stack: Stack)
    requires Inv(t) && Grows(s, t, own) && Unasked(t) && StackOf(t) == stack
    requires Since(s, t) && Tail(k, n) && Explained(s, t, Consumed(n, k))
    ensures t in Outcomes(s, n, k, own, stack)
  {
    hide Consistent, Grown, Since, Tail, Explained, Consumed, StackOf;
  }

  lemma CallParts(s: State, n: seq<Action>, t: State, k: seq<Action>, own: set<Id>, stack: Stack)
    requires t in Outcomes(s, n, k, own, stack)
    ensures Inv(t) && Grows(s, t, own) && Unasked(t) && StackOf(t) == stack
    ensures Since(s, t) && Tail(k, n) && Explained(s, t, Consumed(n, k)) && Continues(s, t)
  {
    hide Consistent, Since, Tail, Explained, Consumed, StackOf, Continues;
    GrownStatus(s, t, own);
  }

  lemma InvShape(s: State)
    requires Inv(s)
    ensures Shape(s)
  {
  }

  lemma CalledRefl(s: State, n: seq<Action>, own: set<Id>)
    requires Inv(s) && Unasked(s)
    ensures s in Outcomes(s, n, n, own, StackOf(s))
  {
    hide Consistent, Outcomes, Grown, StackOf, Tail, Consumed, Shape;
    InvShape(s);
    GrowsItself(s, own);
    ConsumedNone(n);
    Called(s, n, s, n, own, StackOf(s));
  }

  lemma GrowsItself(s: State, own: set<Id>)
    requires Shape(s)
    ensures Grows(s, s, own)
  {
  }

  /** An atomic update is a short stretch. */
  lemma CalledStep(s: State, n: seq<Action>, t: State, own: set<Id>)
    requires Inv(t) && Grows(s, t, own) && Unasked(t) && Since(s, t)
    requires t.modules.Keys == s.modules.Keys && t.h.faults == s.h.faults
    ensures t in Outcomes(s, n, n, own, StackOf(t))
  {
    hide Consistent, Outcomes, Grown, StackOf, Tail, Consumed, Since;
    ConsumedNone(n);
    Called(s, n, t, n, own, StackOf(t));
  }

  lemma CalledTrans(s: State, n: seq<Action>, t: State, k: seq<Action>, u: State, l: seq<Action>,
                    a: set<Id>, st: Stack, b: set<Id>, stack: Stack)
    requires t in Outcomes(s, n, k, a, st) && u in Outcomes(t, k, l, b, stack) && b <= a
    ensures u in Outcomes(s, n, l, a, stack)
  {
    hide Consistent, Outcomes, Grown, Since, Explained, Tail, Consumed, StackOf;
    CallParts(s, n, t, k, a, st);
    CallParts(t, k, u, l, b, stack);
    GrowsTrans(s, t, u, a, b, a);
    SinceTrans(s, t, u);
    ConsumedTrans(n, k, l);
    MoreFaults(t, u);
    ExplainedTrans(s, t, u, Consumed(n, k), Consumed(k, l));
    Called(s, n, u, l, a, stack);
  }

  /** What growth means for the records of modules and the log of factories. */
  ghost predicate Continues(s: State, t: State)
  {
    && s.modules.Keys <= t.modules.Keys && s.h.log <= t.h.log
    && (forall m :: IsComplete(s.modules, m) ==> IsComplete(t.modules, m))
    && (forall m :: m in s.modules && s.modules[m].failed ==> t.modules[m].failed)
    && (forall m :: m in s.modules ==> m in s.h.notes && m in t.h.notes && SameOrigin(s.h.notes[m], t.h.notes[m]))
  }

  predicate SameOrigin(a: Note, b: Note)
  {
    a.declared == b.declared && a.origin == b.origin && a.handler == b.handler
  }

  lemma GrownStatus(s: State, t: State, own: set<Id>)
    requires Grows(s, t, own)
    ensures Continues(s, t)
  {
  }

  lemma DerivedTrans(s: State, t: State, u: State, c: seq<Action>, d: seq<Action>)
    requires Derived(s, t, c) && Derived(t, u, d) && Continues(s, t) && Continues(t, u)
    ensures Derived(s, u, c + d)
  {
    forall m | m in u.modules && m !in s.modules ensures Introduces(u, c + d, m) {
      if m in t.modules {
        assert Introduces(t, c, m) && SameOrigin(t.h.notes[m], u.h.notes[m]);
      } else {
        assert Introduces(u, d, m);
      }
    }
    forall f | f in u.h.faults && f !in s.h.faults ensures Accused(c + d, u.h.log, f) {
      if f in t.h.faults { assert Accused(c, t.h.log, f); }
    }
  }

  lemma ReportedTrans(t: State, u: State, c: seq<Action>, d: seq<Action>)
    requires Reported(t, c) && Reported(u, d) && Continues(t, u) && t.h.faults <= u.h.faults
    ensures Reported(u, c + d)
  {
  }

  lemma ExplainedTrans(s: State, t: State, u: State, c: seq<Action>, d: seq<Action>)
    requires Explained(s, t, c) && Explained(t, u, d) && Continues(s, t) && Continues(t, u)
    requires t.h.faults <= u.h.faults
    ensures Explained(s, u, c + d)
  {
    hide Derived, Reported, Continues;
    DerivedTrans(s, t, u, c, d);
    ReportedTrans(t, u, c, d);
  }

  lemma MoreFaults(s: State, t: State)
    requires Since(s, t)
    ensures s.h.faults <= t.h.faults
  {
  }

  /** Nothing happens when a module is defined again, or when foreign code returns. */
  lemma CalledIdle(s: State, n: seq<Action>, t: State, k: seq<Action>, own: set<Id>, stack: Stack)
    requires t in Outcomes(s, n, k, own, stack) && |k| > 0
    requires k[0].Return? || (k[0].DefineAction? && k[0].id in t.modules)
    ensures t in Outcomes(s, n, k[1..], own, stack)
  {
    hide Consistent, Outcomes, Grown, Since, StackOf;
    CallParts(s, n, t, k, own, stack);
    ConsumedNext(n, k);
    ExplainedMore(s, t, Consumed(n, k), k[0]);
    Called(s, n, t, k[1..], own, stack);
  }

  lemma ExplainedMore(s: State, t: State, c: seq<Action>, a: Action)
    requires Explained(s, t, c) && (a.Return? || (a.DefineAction? && a.id in t.modules))
    ensures Explained(s, t, c + [a])
  {
  }

  /** Defining a module and resolving it, seen from outside. */
  lemma DefineFinished(s: State, m: Id, deps: seq<Dep>, callback: Callback, errorback: bool,
                       n: seq<Action>, u: State, k: seq<Action>)
    requires Inv(s) && m !in s.modules
    requires var t := Define(s, m, deps, callback, errorback); u in Outcomes(t, n, k, {m}, StackOf(s))
    ensures u in Outcomes(s, [DefineAction(m, deps, callback, errorback)] + n, k, {}, StackOf(s))
    ensures m in u.modules && m in u.h.notes && u.h.notes[m].declared == deps
    ensures u.h.notes[m].origin == callback && u.h.notes[m].handler == errorback
  {
    hide Consistent, Outcomes, Grown, StackOf, Tail, Consumed, Since;
    var t, a := Define(s, m, deps, callback, errorback), DefineAction(m, deps, callback, errorback);
    CallParts(t, n, u, k, {m}, StackOf(s));
    DefineKeeps(s, m, deps, callback, errorback);
    GrowsTrans(s, t, u, {}, {m}, {});
    GrownStatus(s, t, {});
    SinceDefine(s, m, deps, callback, errorback);
    SinceTrans(s, t, u);
    ConsumedFirst(a, n, k);
    DefineExplained(s, m, deps, callback, errorback);
    assert SameOrigin(t.h.notes[m], u.h.notes[m]);
    hide Explained, Define;
    MoreFaults(t, u);
    ExplainedTrans(s, t, u, [a], Consumed(n, k));
    Called(s, [a] + n, u, k, {}, StackOf(s));
  }

  lemma SinceDefine(s: State, m: Id, deps: seq<Dep>, callback: Callback, errorback: bool)
    requires m !in s.modules
    ensures Since(s, Define(s, m, deps, callback, errorback))
  {
  }

  lemma DefineExplained(s: State, m: Id, deps: seq<Dep>, callback: Callback, errorback: bool)
    requires m !in s.modules
    ensures Explained(s, Define(s, m, deps, callback, errorback), [DefineAction(m, deps, callback, errorback)])
  {
  }

  lemma CalledFacts(s: State, n: seq<Action>, t: State, k: seq<Action>, own: set<Id>, stack: Stack)
    requires t in Outcomes(s, n, k, own, stack)
    ensures Inv(t) && Unasked(t) && StackOf(t) == stack && Tail(k, n) && |k| <= |n|
    ensures |k| == |n| ==> k == n && t.modules.Keys == s.modules.Keys && Unfinished(t.modules) <= Unfinished(s.modules)
  {
    hide Consistent, Outcomes, Grown, Since, StackOf;
    CallParts(s, n, t, k, own, stack);
    if |k| == |n| {
      assert n[0..] == n && Consumed(n, k) == [];
      ExplainedNothing(s, t);
    }
  }

  lemma ExplainedNothing(s: State, t: State)
    requires Explained(s, t, []) && Continues(s, t)
    ensures t.modules.Keys == s.modules.Keys && Unfinished(t.modules) <= Unfinished(s.modules)
  {
    forall m | m in t.modules ensures m in s.modules {
      assert m !in s.modules ==> Introduces(t, [], m);
    }
    forall m | m in Unfinished(t.modules) ensures m in Unfinished(s.modules) {
      assert m in s.modules && (s.modules[m].complete ==> IsComplete(s.modules, m));
    }
  }

  /** What a call leaves of a module that was there before. */
  lemma CalledModule(s: State, n: seq<Action>, t: State, k: seq<Action>, own: set<Id>, stack: Stack, m: Id)
    requires t in Outcomes(s, n, k, own, stack) && m in s.modules
    ensures Shape(s) && Shape(t)
    ensures m in t.modules && m in s.h.notes && m in t.h.notes
    ensures t.h.notes[m].declared == s.h.notes[m].declared
    ensures m !in own ==> t.h.notes[m].next == s.h.notes[m].next
    ensures s.modules[m].complete ==> t.modules[m].complete
    ensures s.modules[m].failed ==> t.modules[m].failed
  {
    hide Consistent, Since, Explained, Tail, Consumed, StackOf;
  }

  /** The end of `_resolve` of m, seen from its last dependency. */
  lemma Rested(s: State, n: seq<Action>, t: State, k: seq<Action>, m: Id, others: set<Id>)
    requires t in Outcomes(s, n, k, {}, StackOf(s)) && m in s.modules && s.h.busy == others + {m}
    requires IsComplete(t.modules, m) || (t == s && Inv(s) && m in s.h.notes
        && s.h.notes[m].next == |s.h.notes[m].declared| && s.modules[m].unresolved > 0)
    ensures Rest(t, others) in Outcomes(s, n, k, {}, StackOf(s).(busy := others))
  {
    hide Consistent, Outcomes, Grown, Since, Shape;
    CalledFacts(s, n, t, k, {}, StackOf(s));
    InvShape(t);
    SinceRest(t, others);
    RestKeeps(t, others);
    CalledStep(t, k, Rest(t, others), {});
    CalledTrans(s, n, t, k, Rest(t, others), k, {}, StackOf(t), {}, StackOf(s).(busy := others));
  }

  /** Everything in deps has been defined or requested. */
  predicate AllRequested(deps: seq<Dep>, u: State)
  {
    forall dep :: dep in deps ==> DepId(dep) in u.modules || DepId(dep) in u.known
  }

  /** Since s, nothing has been kept for m again. */
  predicate Emptied(s: State, m: Id, u: State)
  {
    IsComplete(s.modules, m) ==> IsComplete(u.modules, m) && PluginWaiters(u.plugins, m) == []
  }

  /** The suspended calls while the resources kept for m are asked for. */
  function Providing(s: State, m: Id, offers: multiset<Dep>): Stack
  {
    StackOf(s).(providing := s.h.providing - {m}, offers := offers)
  }

  lemma NothingRequested(s: State, m: Id, u: State)
    requires u == Fetch(s, m)
    ensures Emptied(s, m, u) && AllRequested([], u)
    ensures StackOf(u) == Providing(s, m, s.h.offers + multiset(PluginWaiters(s.plugins, m)))
  {
  }

  lemma MoreRequested(s: State, m: Id, t: State, k: seq<Action>, u: State, l: seq<Action>, deps: seq<Dep>, i: int,
                      left: multiset<Dep>)
    requires 0 <= i < |deps| && Emptied(s, m, t) && AllRequested(deps[..i], t)
    requires exists stack :: u in Outcomes(t, k, l, {}, stack)
    requires DepId(deps[i]) in u.modules || DepId(deps[i]) in u.known
    ensures Emptied(s, m, u) && AllRequested(deps[..i + 1], u)
    ensures StackOf(t) == Providing(s, m, left + multiset{deps[i]}) ==>
      StackOf(t).(offers := t.h.offers - multiset{deps[i]}) == Providing(s, m, left)
  {
    hide Outcomes;
    var stack :| u in Outcomes(t, k, l, {}, stack);
    CalledKnown(t, k, u, l, {}, stack);
    if IsComplete(t.modules, m) { CalledComplete(t, k, u, l, {}, stack, m); }
    assert deps[..i + 1] == deps[..i] + [deps[i]];
  }

  lemma AllWereRequested(s: State, m: Id, u: State, deps: seq<Dep>)
    requires Emptied(s, m, u) && AllRequested(deps[..|deps|], u)
    ensures IsComplete(s.modules, m) ==> PluginWaiters(u.plugins, m) == []
    ensures AllRequested(deps, u) && Providing(s, m, s.h.offers) == StackOf(s).(providing := s.h.providing - {m})
  {
    assert deps[..|deps|] == deps;
  }

  /** dep is a declared dependency on a resource, and its plugin is complete. */
  ghost predicate Providable(s: State, dep: Dep)
  {
    DeclaredBy(s.h.notes, dep) && dep.Plugin? && IsComplete(s.modules, dep.pluginId)
  }

  lemma ListedAreProvidable(s: State, p: Id)
    requires Inv(s) && IsComplete(s.modules, p)
    ensures forall dep :: dep in PluginWaiters(s.plugins, p) ==> dep.Plugin? && Providable(s, dep)
  {
    hide Consistent, Timed, Blamed, Forwarded, DeclaredBy;
    TracedOf(s);
    assert Sourced(s);
  }

  lemma StillProvidable(s: State, n: seq<Action>, t: State, k: seq<Action>, own: set<Id>, stack: Stack, dep: Dep)
    requires t in Outcomes(s, n, k, own, stack) && Providable(s, dep)
    ensures Providable(t, dep)
  {
    assert Keeping(s, t);
    DeclaredStays(s, t, dep);
  }

  /** The plugin is complete, so it may be asked for the resource. */
  function ViaPlugin(s: State, dep: Dep): Via
    requires dep.Plugin?
  {
    Provider(dep.pluginId, |s.h.done|)
  }

  lemma ProvidableVouched(s: State, dep: Dep)
    requires Inv(s) && Providable(s, dep) && Unasked(s)
    ensures Vouched(s.h.notes, s.h.done, DepId(dep), ViaPlugin(s, dep)) && Entrusted(s, DepId(dep))
  {
    TracedOf(s);
    assert s.h.done[..|s.h.done|] == s.h.done;
  }

  /** What is asked for is wanted, and what is passed on is in order. */
  lemma RecordedOpens(s: State, m: Id)
    requires Unasked(s) && m in s.h.notes && 0 <= s.h.notes[m].next < |s.h.notes[m].declared|
    ensures OpeningOnly(Record(s, m), Current(s, m))
  {
  }

  lemma RegularWanted(s: State, id: Id)
    requires DeclaredBy(s.h.notes, Regular(id)) && OpeningOnly(s, Regular(id))
    ensures Wanted(s.h.notes, id) && Entrusted(s, id)
  {
  }

  lemma PluginWanted(s: State, r: Id, p: Id)
    requires DeclaredBy(s.h.notes, Plugin(r, p)) && OpeningOnly(s, Plugin(r, p))
    ensures Wanted(Enlist(s, r, p).h.notes, p) && Entrusted(Enlist(s, r, p), p)
    ensures KeptOrKnown(Enlist(s, r, p), r, p)
  {
    hide DeclaredBy;
    assert AwaitsPlugin(Enlist(s, r, p).plugins, s.h.offers, r, p);
  }

  /** The dependency that is looked at is a declared one. */
  lemma CurrentDeclared(s: State, m: Id)
    requires m in s.h.notes && 0 <= s.h.notes[m].next < |s.h.notes[m].declared|
    ensures DeclaredBy(s.h.notes, Current(s, m)) && DeclaredBy(Record(s, m).h.notes, Current(s, m))
    ensures (m, DepId(Current(s, m))) in DeclaredGraph(s.h.notes)
  {
    assert Current(s, m) in s.h.notes[m].declared;
    assert Current(s, m) in Record(s, m).h.notes[m].declared;
  }

  lemma FailureSpreads(s: State, m: Id, d: Id)
    requires Inv(s) && (m, d) in DeclaredGraph(s.h.notes) && d in s.modules && s.modules[d].failed
    ensures AtFault(s.h.faults, DeclaredGraph(s.h.notes), m)
  {
    assert Blamed(s);
    FaultSpreads(s, m, d);
  }

  lemma SinceRest(s: State, busy: set<Id>)
    ensures Since(s, Rest(s, busy))
  {
  }

  /** An update that completes nothing, then a call. */
  lemma StepThen(s: State, n: seq<Action>, t: State, u: State, k: seq<Action>, own: set<Id>, stack: Stack)
    requires Grows(s, t, own) && Since(s, t) && t.modules.Keys == s.modules.Keys && t.h.faults == s.h.faults
    requires u in Outcomes(t, n, k, {}, stack)
    ensures u in Outcomes(s, n, k, own, stack)
  {
    hide Consistent, Outcomes, Grown, Since, StackOf, Tail, Consumed;
    CallParts(t, n, u, k, {}, stack);
    GrowsTrans(s, t, u, own, {}, own);
    GrownStatus(s, t, own);
    SinceTrans(s, t, u);
    MoreFaults(t, u);
    ExplainedTrans(s, t, u, [], Consumed(n, k));
    assert [] + Consumed(n, k) == Consumed(n, k);
    Called(s, n, u, k, own, stack);
  }

  /** A dependency recorded, then requested. */
  lemma Requested(s: State, n: seq<Action>, m: Id, u: State, k: seq<Action>)
    requires Inv(s) && Unasked(s) && Resolving(s, m) && !IsComplete(s.modules, DepId(Current(s, m)))
    requires Grows(s, Record(s, m), {m}) && u in Outcomes(Record(s, m), n, k, {}, StackOf(s))
    ensures u in Outcomes(s, n, k, {m}, StackOf(s))
    ensures m in u.modules && m in u.h.notes && u.h.notes[m].declared == s.h.notes[m].declared
    ensures u.h.notes[m].next == s.h.notes[m].next + 1
  {
    hide Consistent, Outcomes, Grown, StackOf, Counted, Finished, Alert;
    InvShape(s);
    SinceRecord(s, m);
    StepThen(s, n, Record(s, m), u, k, {m}, StackOf(s));
    CalledModule(Record(s, m), n, u, k, {}, StackOf(s), m);
  }

  lemma SinceRecord(s: State, m: Id)
    requires m in s.h.notes && 0 <= s.h.notes[m].next < |s.h.notes[m].declared|
    requires !IsComplete(s.modules, DepId(Current(s, m)))
    ensures Since(s, Record(s, m))
  {
  }

  /** A factory ran, or there was none: the completion ends. */
  lemma CompleteEnds(s: State, n: seq<Action>, m: Id, u: State, k: seq<Action>, threw: bool)
    requires Inv(s) && Due0(s, m) && !s.modules[m].complete && Unasked(s)
    requires u in Outcomes(Begin(s, m), n, k, {}, StackOf(Begin(s, m)))
    requires threw ==> s.modules[m].callback.Factory? && Return(true) in Consumed(n, k)
    ensures m in u.modules && u.modules[m].complete
    ensures End(u, m, threw) in Outcomes(s, n, k, {}, Completing(s, m))
    ensures s.h.done + [m] <= u.h.done && (s.modules[m].callback.Factory? ==> s.h.log + [m] <= u.h.log)
  {
    hide Consistent, Outcomes, Grown, Since, Explained, Tail, Consumed, Shape;
    InvShape(s);
    var t := Begin(s, m);
    BeginKeeps(s, m);
    CallParts(t, n, u, k, {}, StackOf(t));
    CalledModule(t, n, u, k, {}, StackOf(t), m);
    CalledLog(t, n, u, k, {}, StackOf(t));
    CounterFacts(s, m);
    ZeroStays(t, u, m);
    SinceBegin(s, m);
    StepThen(s, n, t, u, k, {}, StackOf(t));
    CallParts(s, n, u, k, {}, StackOf(t));
    EndKeeps(u, m, threw);
    CompletedLog(s, m, u);
    assert threw ==> (s.h.log + [m])[|s.h.log|] == m;
    EndExplained(s, u, m, threw, Consumed(n, k));
    GrowsTrans(s, u, End(u, m, threw), {}, {}, {});
    SinceEnd(s, u, m, threw);
    Called(s, n, End(u, m, threw), k, {}, Completing(s, m));
  }

  lemma SinceBegin(s: State, m: Id)
    requires m in s.modules
    ensures Since(s, Begin(s, m))
  {
  }

  lemma CompletedLog(s: State, m: Id, u: State)
    requires m in s.modules && Begin(s, m).h.log <= u.h.log
    ensures s.modules[m].callback.Factory? ==> s.h.log + [m] <= u.h.log
  {
  }

  /** The first action to come is read off. */
  lemma ConsumedNext(n: seq<Action>, k: seq<Action>)
    requires Tail(k, n) && |k| > 0
    ensures Tail(k[1..], n)
  {
    assert n[|n| - |k|..][1..] == n[|n| - |k| + 1..];
  }

  /** Once an action other than a return has been read off, there was no silence. */
  lemma ConsumedLoud(n: seq<Action>, k: seq<Action>, l: seq<Action>)
    requires Tail(k, n) && |k| > 0 && Tail(l, k) && |l| < |k| && !k[0].Return?
    ensures Tail(l, n) && !Silent(Consumed(n, l))
  {
    SilentTrans(n, k, l);
    assert k[0] in Consumed(k, l);
  }

  lemma TakenLast(n: seq<Action>, k: seq<Action>)
    requires Tail(k, n) && |k| > 0 && k[0].Return?
    ensures EndsIn(n, k[1..], k[0].threw)
  {
    assert n[|n| - |k|..][0] == n[|n| - |k|];
  }

  lemma ConsumedReturn(n: seq<Action>, k: seq<Action>)
    requires Tail(k, n) && |k| > 0
    ensures k[0] in Consumed(n, k[1..]) && (Silent(Consumed(n, k[1..])) ==> Silent(Consumed(n, k)))
  {
    assert Consumed(n, k[1..]) == Consumed(n, k) + [n[|n| - |k|]];
    assert n[|n| - |k|..][0] == n[|n| - |k|];
  }

  /** A complete module stays complete, and its lists stay empty. */
  lemma CalledComplete(s: State, n: seq<Action>, t: State, k: seq<Action>, own: set<Id>, stack: Stack, m: Id)
    requires t in Outcomes(s, n, k, own, stack) && IsComplete(s.modules, m)
    ensures IsComplete(t.modules, m)
    ensures Waiters(s.inverse, m) == [] ==> Waiters(t.inverse, m) == []
    ensures PluginWaiters(s.plugins, m) == [] ==> PluginWaiters(t.plugins, m) == []
    ensures s.modules[m].dependencies.Released? ==> t.modules[m].dependencies.Released?
  {
  }

  lemma CalledLog(s: State, n: seq<Action>, t: State, k: seq<Action>, own: set<Id>, stack: Stack)
    requires t in Outcomes(s, n, k, own, stack)
    ensures s.h.log <= t.h.log && s.h.done <= t.h.done && s.h.faults <= t.h.faults && s.h.called <= t.h.called
    ensures s.h.woken <= t.h.woken
  {
  }

  lemma EndExplained(s: State, u: State, m: Id, threw: bool, c: seq<Action>)
    requires Explained(s, u, c) && m in u.modules && (threw ==> m in u.h.log && Return(true) in c)
    ensures Explained(s, End(u, m, threw), c)
  {
  }

  lemma SinceEnd(s: State, u: State, m: Id, threw: bool)
    requires Since(s, u) && m in u.modules
    ensures Since(s, End(u, m, threw))
  {
  }

  lemma WakeStep(s: State, n: seq<Action>, x: Id)
    requires Inv(s) && Unasked(s) && x in s.h.pending
    ensures x in s.modules
    ensures var t := Wake(s, x);
      && Inv(t) && Unasked(t) && t in Outcomes(t, n, n, {}, StackOf(t))
      && (t.modules[x].unresolved == 0 ==> Shape(t) && Due0(t, x))
      && Unfinished(t.modules) == Unfinished(s.modules)
      && x in t.modules
  {
    hide Consistent, Outcomes, Grown, Shape, Due0, Unfinished;
    WakeKeeps(s, x);
    CounterFacts(Wake(s, x), x);
    CalledRefl(Wake(s, x), n, {});
    WakeUnfinished(s, x);
  }

  lemma WakeUnfinished(s: State, x: Id)
    requires x in s.modules
    ensures Unfinished(Wake(s, x).modules) == Unfinished(s.modules)
  {
  }

  /** Waiter x is awake, and back to where it was if that was not the last wake-up. */
  lemma WakeRests(s: State, n: seq<Action>, x: Id, u: State, k: seq<Action>)
    requires Inv(s) && Unasked(s) && x in s.h.pending && x in s.modules
    requires var t := Wake(s, x);
      && u in Outcomes(t, n, k, {}, StackOf(t))
      && (IsComplete(u.modules, x) || (u == t && t.modules[x].unresolved != 0))
    ensures Rest(u, s.h.busy) in Outcomes(s, n, k, {}, StackOf(s).(pending := s.h.pending - multiset{x}))
  {
    hide Consistent, Outcomes, Grown, Since, Shape;
    var t := Wake(s, x);
    WakeKeeps(s, x);
    CounterFacts(s, x);
    CounterFacts(t, x);
    CallParts(t, n, u, k, {}, StackOf(t));
    SinceWake(s, x, u);
    CalledStep(s, n, t, {});
    RestKeeps(u, s.h.busy);
    CalledStep(u, k, Rest(u, s.h.busy), {});
    CalledTrans(s, n, t, n, u, k, {}, StackOf(t), {}, StackOf(t));
    CalledTrans(s, n, u, k, Rest(u, s.h.busy), k, {}, StackOf(t), {}, StackOf(Rest(u, s.h.busy)));
  }

  lemma WokenLast(s: State, x: Id)
    requires x in s.modules
    ensures Wake(s, x).h.woken == s.h.woken + [x]
  {
  }

  /** Between the logs `before` and `after` those in xs were woken, in this order. */
  predicate WokenInOrder(xs: seq<Id>, before: seq<Id>, after: seq<Id>)
  {
    before <= after && Embedded(xs, after[|before|..])
  }

  predicate Embedded(xs: seq<Id>, ys: seq<Id>)
  {
    || xs == []
    || (ys != [] && Embedded(xs, ys[..|ys| - 1]))
    || (ys != [] && xs[|xs| - 1] == ys[|ys| - 1] && Embedded(xs[..|xs| - 1], ys[..|ys| - 1]))
  }

  lemma {:induction false} EmbeddedMore(xs: seq<Id>, ys: seq<Id>, more: seq<Id>)
    requires Embedded(xs, ys)
    ensures Embedded(xs, ys + more)
    decreases |more|
  {
    if more == [] {
      assert ys + more == ys;
    } else {
      EmbeddedMore(xs, ys, more[..|more| - 1]);
      assert (ys + more)[..|ys + more| - 1] == ys + more[..|more| - 1];
    }
  }

  lemma NoneWoken(log: seq<Id>)
    ensures WokenInOrder([], log, log)
  {
  }

  lemma OneMoreWoken(xs: seq<Id>, i: int, before: seq<Id>, log: seq<Id>, after: seq<Id>)
    requires 0 <= i < |xs| && WokenInOrder(xs[..i], before, log) && log + [xs[i]] <= after
    ensures WokenInOrder(xs[..i + 1], before, after)
  {
    var ys, zs := log[|before|..], log[|before|..] + [xs[i]];
    assert xs[..i + 1][..i] == xs[..i] && zs[..|zs| - 1] == ys;
    assert Embedded(xs[..i + 1], zs);
    var more := after[|log| + 1..];
    assert after == log + [xs[i]] + more && after[|before|..] == zs + more;
    EmbeddedMore(xs[..i + 1], zs, more);
  }

  lemma SinceWake(s: State, x: Id, u: State)
    requires x in s.modules
    ensures Since(s, Wake(s, x)) && forall busy :: Since(u, Rest(u, busy))
  {
  }

  lemma AskStep(s: State, n: seq<Action>, d: Id)
    requires Inv(s) && s.h.asking <= {d} && (d in s.modules || d in s.known) && Entrusted(s, d)
    ensures var t := Ask(s, d);
      Inv(t) && Unasked(t) && t in Outcomes(s, n, n, {}, StackOf(s)) && StackOf(t) == StackOf(s)
  {
    hide Consistent, Outcomes, Grown;
    AskKeeps(s, d);
    CalledStep(s, n, Ask(s, d), {});
  }

  lemma NotRequested(s: State, d: Id)
    requires Inv(s) && d !in s.known
    ensures d !in s.h.vias
  {
    TracedOf(s);
  }

  lemma RequestStep(s: State, n: seq<Action>, d: Id, via: Via)
    requires Inv(s) && s.h.asking <= {d} && d !in s.known && Vouched(s.h.notes, s.h.done, d, via) && Entrusted(s, d)
    ensures var t := LoaderState.Request(s, d, via);
      Inv(t) && Unasked(t) && t in Outcomes(s, n, n, {}, StackOf(s)) && StackOf(t) == StackOf(s)
  {
    hide Consistent, Outcomes, Grown;
    NotRequested(s, d);
    RequestKeeps(s, d, via);
    CalledStep(s, n, LoaderState.Request(s, d, via), {});
  }

  /** A call never forgets a definition or a request. */
  lemma CalledKnown(s: State, n: seq<Action>, t: State, k: seq<Action>, own: set<Id>, stack: Stack)
    requires t in Outcomes(s, n, k, own, stack)
    ensures s.modules.Keys <= t.modules.Keys && s.known <= t.known
    ensures s.h.requests <= t.h.requests && forall q :: q in s.h.vias ==> q in t.h.vias && t.h.vias[q] == s.h.vias[q]
  {
  }

  /** What was passed on stays so. */
  lemma CalledPassed(s: State, n: seq<Action>, t: State, k: seq<Action>, own: set<Id>, stack: Stack)
    requires t in Outcomes(s, n, k, own, stack)
    ensures forall r, p :: PassedOn(s, r, p) ==> PassedOn(t, r, p)
  {
    hide Consistent, Grown, PassedOn;
  }

  lemma AskedPasses(s: State, p: Id)
    requires p in s.modules || p in s.known
    ensures forall r :: KeptOrKnown(s, r, p) ==> PassedOn(Ask(s, p), r, p)
  {
  }

  lemma KnownPasses(s: State, t: State, p: Id)
    requires t.modules == s.modules && s.known <= t.known && t.plugins == s.plugins && t.h.offers == s.h.offers
    requires p in t.modules || p in t.known
    ensures forall r :: KeptOrKnown(s, r, p) ==> PassedOn(t, r, p)
  {
  }

  /** A resource kept for its plugin, which was then asked for. */
  lemma Enlisted(s: State, n: seq<Action>, r: Id, p: Id, u: State, k: seq<Action>)
    requires Inv(s) && !IsComplete(s.modules, p) && Reached(s, r) && s.h.asking <= {r}
    requires DeclaredBy(s.h.notes, Plugin(r, p)) && u in Outcomes(Enlist(s, r, p), n, k, {}, StackOf(s))
    ensures u in Outcomes(s, n, k, {}, StackOf(s))
  {
    hide Consistent, Outcomes, Grown, StackOf;
    EnlistKeeps(s, r, p);
    StepThen(s, n, Enlist(s, r, p), u, k, {}, StackOf(s));
  }

  lemma OfferStep(s: State, n: seq<Action>, r: Id, p: Id)
    requires Inv(s) && s.h.asking <= {r} && Reached(s, r) && DeclaredBy(s.h.notes, Plugin(r, p))
    requires IsComplete(s.modules, p) && OpeningOnly(s, Plugin(r, p))
    ensures var t := Offer(s, r, p);
      && Inv(t) && Unasked(t) && t in Outcomes(s, n, n, {}, StackOf(t))
      && StackOf(t) == StackOf(s).(offers := s.h.offers + multiset{Plugin(r, p)})
  {
    hide Consistent, Outcomes, Grown;
    OfferKeeps(s, r, p);
    CalledStep(s, n, Offer(s, r, p), {});
  }

  lemma FetchStep(s: State, n: seq<Action>, p: Id)
    requires Inv(s) && Unasked(s) && IsComplete(s.modules, p)
    ensures var t := Fetch(s, p);
      && Inv(t) && Unasked(t) && t in Outcomes(s, n, n, {}, StackOf(t))
      && StackOf(t) == StackOf(s).(offers := s.h.offers + multiset(PluginWaiters(s.plugins, p)),
        providing := s.h.providing - {p})
      && PluginWaiters(t.plugins, p) == []
  {
    hide Consistent, Outcomes, Grown;
    FetchKeeps(s, p);
    CalledStep(s, n, Fetch(s, p), {});
  }

  lemma GrantStep(s: State, n: seq<Action>, dep: Dep)
    requires Inv(s) && Unasked(s) && (DepId(dep) in s.modules || DepId(dep) in s.known)
    ensures Grant(s, dep) in Outcomes(s, n, n, {}, StackOf(s).(offers := s.h.offers - multiset{dep}))
  {
    hide Consistent, Outcomes, Grown;
    GrantKeeps(s, dep);
    CalledStep(s, n, Grant(s, dep), {});
  }

  lemma SkipStep(s: State, n: seq<Action>, m: Id)
    requires Inv(s) && Unasked(s) && Resolving(s, m)
    requires Special(Current(s, m)) || IsComplete(s.modules, DepId(Current(s, m)))
    ensures Skip(s, m) in Outcomes(s, n, n, {m}, StackOf(s))
  {
    hide Consistent, Outcomes, Grown;
    InvShape(s);
    SkipKeeps(s, m);
    CalledStep(s, n, Skip(s, m), {m});
  }

  lemma DropStep(s: State, n: seq<Action>, m: Id)
    requires Inv(s) && Unasked(s) && Resolving(s, m)
    requires Reaches(LiveGraph(s.modules), DepId(Current(s, m)), m)
    ensures Drop(s, m) in Outcomes(s, n, n, {m}, StackOf(s))
  {
    hide Consistent, Outcomes, Grown;
    InvShape(s);
    DropKeeps(s, m);
    CalledStep(s, n, Drop(s, m), {m});
  }

  lemma FailStep(s: State, n: seq<Action>, m: Id)
    requires Inv(s) && Unasked(s) && m in s.modules && AtFault(s.h.faults, DeclaredGraph(s.h.notes), m)
    ensures var t := Fail(s, m);
      t in Outcomes(s, n, n, {}, StackOf(s)) && t in Outcomes(t, n, n, {}, StackOf(s)) && StackOf(t) == StackOf(s)
    ensures Inv(Fail(s, m)) && Unasked(Fail(s, m))
  {
    hide Consistent, Outcomes, Grown;
    FailKeeps(s, m);
    CalledStep(s, n, Fail(s, m), {});
    CalledRefl(Fail(s, m), n, {});
  }

  lemma BeginStep(s: State, n: seq<Action>, m: Id)
    requires Inv(s) && Due0(s, m) && !s.modules[m].complete && Unasked(s)
    ensures var t := Begin(s, m);
      Inv(t) && Unasked(t) && t in Outcomes(t, n, n, {}, StackOf(t)) && m in t.modules && m !in s.h.running
        && m !in s.h.providing
  {
    BeginKeeps(s, m);
    CounterFacts(s, m);
    CalledRefl(Begin(s, m), n, {});
  }

  /** The list of waiters of m is taken right after m completed. */
  lemma TakeStep(s: State, n: seq<Action>, t: State, k: seq<Action>, m: Id)
    requires m in Unfinished(s.modules) && m !in s.h.running && IsComplete(t.modules, m)
    requires t in Outcomes(s, n, k, {}, Completing(s, m))
    ensures var u := Take(t, m);
      && Inv(u) && Unasked(u) && u in Outcomes(s, n, k, {}, StackOf(u))
      && StackOf(u) == StackOf(s).(pending := s.h.pending + multiset(Waiters(t.inverse, m)),
        providing := s.h.providing + {m})
      && m in u.modules && u.modules == t.modules && Waiters(u.inverse, m) == []
  {
    hide Consistent, Outcomes, Grown;
    CallParts(s, n, t, k, {}, Completing(s, m));
    TakeKeeps(t, m);
    CalledStep(t, k, Take(t, m), {});
    CalledTrans(s, n, t, k, Take(t, m), k, {}, Completing(s, m), {}, StackOf(Take(t, m)));
  }

  /** A walk over `waiters` that has reached position i has `left` pending. */
  ghost predicate Split<T>(pending: multiset<T>, waiters: seq<T>, i: int, left: multiset<T>)
  {
    && 0 <= i <= |waiters| && multiset(waiters[i..]) <= left
    && pending - multiset(waiters) == left - multiset(waiters[i..])
  }

  lemma SplitStart<T>(pending: multiset<T>, waiters: seq<T>)
    requires multiset(waiters) <= pending
    ensures Split(pending, waiters, 0, pending)
  {
    assert waiters[0..] == waiters;
  }

  lemma SplitNext<T>(pending: multiset<T>, waiters: seq<T>, i: int, left: multiset<T>)
    requires Split(pending, waiters, i, left) && i < |waiters|
    ensures waiters[i] in left && Split(pending, waiters, i + 1, left - multiset{waiters[i]})
  {
    assert waiters[i..] == [waiters[i]] + waiters[i + 1..];
  }

  lemma SplitEnd<T>(pending: multiset<T>, waiters: seq<T>, left: multiset<T>)
    requires Split(pending, waiters, |waiters|, left)
    ensures left == pending - multiset(waiters)
  {
    assert waiters[|waiters|..] == [];
  }

  // -------------------------------------------------------------- load errors

  /** The modules, with an entry for id. */
  function WithStub(modules: Modules, id: Id): Modules
  {
    if id in modules then modules else modules[id := Module(Listed([]), Factory, false, 0, false, false)]
  }

  /** The modules, with those in xs complete and failed. */
  ghost function FailEach(modules: Modules, xs: seq<Id>): Modules
  {
    map x | x in modules :: if x in xs then modules[x].(complete := true, failed := true) else modules[x]
  }

  /** Someone in xs had an errorback. */
  ghost predicate Notified(modules: Modules, xs: seq<Id>)
  {
    exists x :: x in xs && x in modules && modules[x].errorback
  }

  /** Those of xs that have an errorback, in order. */
  function Handlers(modules: Modules, xs: seq<Id>): seq<Id>
  {
    if xs == [] then []
    else
      var x := xs[|xs| - 1];
      Handlers(modules, xs[..|xs| - 1]) + if x in modules && modules[x].errorback then [x] else []
  }

  lemma NoHandlers(modules: Modules)
    ensures Handlers(modules, []) == []
  {
  }

  lemma HandlersNext(modules: Modules, xs: seq<Id>, x: Id)
    ensures Handlers(modules, xs + [x]) ==
      Handlers(modules, xs) + if x in modules && modules[x].errorback then [x] else []
  {
    assert (xs + [x])[..|xs|] == xs;
  }

  /** What is left of n actions when each of those in `calls` has taken one. */
  function LeftAfter(n: int, calls: int): int
  {
    if calls <= n then n - calls else 0
  }

  /** Those of ws that are not in `seen`, once each, in order. */
  function Fresh(ws: seq<Id>, seen: set<Id>): seq<Id>
  {
    if ws == [] then []
    else
      var before, w := Fresh(ws[..|ws| - 1], seen), ws[|ws| - 1];
      if w in seen || w in before then before else before + [w]
  }

  /** The order of a breadth-first search from id along waiting lists, as far as it is
      known when those in `visited` have been looked at. */
  function Wave(inverse: Inverse, id: Id, visited: seq<Id>): seq<Id>
  {
    if visited == [] then [id]
    else
      var before := Wave(inverse, id, visited[..|visited| - 1]);
      before + Fresh(Waiters(inverse, visited[|visited| - 1]), Elements(before))
  }

  function Elements(xs: seq<Id>): set<Id>
  {
    set x | x in xs
  }

  lemma WaveNext(inverse: Inverse, id: Id, visited: seq<Id>, queue: seq<Id>, seen: set<Id>, queue': seq<Id>)
    requires |queue| > 0 && visited + queue == Wave(inverse, id, visited)
    requires forall x :: x in seen <==> x in visited + queue
    requires queue' == queue[1..] + Fresh(Waiters(inverse, queue[0]), seen)
    ensures (visited + [queue[0]]) + queue' == Wave(inverse, id, visited + [queue[0]])
  {
    var v := visited + [queue[0]];
    assert v[..|v| - 1] == visited && v[|v| - 1] == queue[0];
    var w := Wave(inverse, id, visited);
    forall x ensures x in seen <==> x in Elements(w) { assert x in visited + queue <==> x in w; }
    assert seen == Elements(w);
    assert v + queue' == (visited + queue) + Fresh(Waiters(inverse, queue[0]), seen);
  }

  /** `seen` holds what was visited and what is queued, once each. */
  ghost predicate Frontier(visited: seq<Id>, queue: seq<Id>, seen: set<Id>)
  {
    NoRepeats(visited + queue) && forall x :: x in seen <==> x in visited + queue
  }

  /** Everything seen leads to id, and the waiters of what was visited are seen. */
  ghost predicate Backwards(inverse: Inverse, id: Id, visited: seq<Id>, seen: set<Id>)
  {
    && id in seen
    && (forall x :: x in seen ==> x == id || Reaches(WaitGraph(inverse), x, id))
    && (forall x, w :: x in visited && w in Waiters(inverse, x) ==> w in seen)
  }

  /** Nobody who waits for id, directly or not, has an errorback. */
  ghost predicate Unhandled(modules: Modules, inverse: Inverse, id: Id)
  {
    forall x :: x in modules && (x == id || Reaches(WaitGraph(inverse), x, id)) ==> !modules[x].errorback
  }

  lemma SpreadUnhandled(s: State, id: Id, x: Id)
    ensures Unhandled(s.modules, s.inverse, id) && x in s.modules ==>
      (x == id || Reaches(WaitGraph(s.inverse), x, id) ==> !s.modules[x].errorback)
  {
  }

  lemma SilentNone(n: seq<Action>)
    ensures Tail(n, n) && Silent(Consumed(n, n))
  {
  }

  /** s after the error has been handled by those in xs, one after the other. */
  function FailAll(s: State, xs: seq<Id>): State
  {
    if xs == [] then s
    else
      var t, x := FailAll(s, xs[..|xs| - 1]), xs[|xs| - 1];
      if x in t.modules then Fail(t, x) else t
  }

  lemma FailAllNext(s: State, xs: seq<Id>, x: Id)
    requires x in FailAll(s, xs).modules
    ensures FailAll(s, xs + [x]) == Fail(FailAll(s, xs), x)
  {
    assert (xs + [x])[..|xs|] == xs;
  }

  lemma {:induction false} FailAllFacts(s: State, xs: seq<Id>)
    ensures var t := FailAll(s, xs);
      t == s.(modules := FailEach(s.modules, xs),
              h := s.h.(done := t.h.done, called := s.h.called + Handlers(s.modules, xs)))
    decreases |xs|
  {
    if xs == [] {
      assert FailEach(s.modules, []) == s.modules && s.h.called + [] == s.h.called;
    } else {
      var front, x := xs[..|xs| - 1], xs[|xs| - 1];
      FailAllFacts(s, front);
      assert xs == front + [x];
      HandlersNext(s.modules, front, x);
      if x in s.modules { FailEachNext(s.modules, front, x); }
      assert x !in s.modules ==> FailEach(s.modules, xs) == FailEach(s.modules, front);
    }
  }

  /** Those seen lead to id along declared dependencies, and those visited failed. */
  ghost predicate Doomed(u: State, id: Id, visited: seq<Id>, seen: set<Id>)
  {
    && (forall x :: x in visited ==> x in u.modules && u.modules[x].complete && u.modules[x].failed)
    && (forall x :: x in seen ==> x == id || Reaches(DeclaredGraph(u.h.notes), x, id))
  }

  /** The walk from state s has come to state u; `quiet` if no errorback called in. */
  ghost predicate Spreading(s: State, id: Id, u: State, visited: seq<Id>, queue: seq<Id>, seen: set<Id>,
      notified: bool, quiet: bool)
  {
    && Frontier(visited, queue, seen) && seen <= u.modules.Keys && Doomed(u, id, visited, seen) && id in u.h.faults
    && (visited == [] ==> queue == [id]) && (visited != [] ==> id in visited)
    && (quiet ==>
          && u == FailAll(s, visited) && Backwards(s.inverse, id, visited, seen)
          && visited + queue == Wave(s.inverse, id, visited)
          && notified == Notified(s.modules, visited))
  }

  lemma SpreadStarts(s: State, id: Id)
    requires id in s.modules && id in s.h.faults
    ensures Spreading(s, id, s, [], [id], {id}, false, true)
  {
  }

  /** One round: from t to u by the error handling of the first in the queue. */
  lemma SpreadRound(s: State, id: Id, t: State, k: seq<Action>, u: State, l: seq<Action>,
                    visited: seq<Id>, queue: seq<Id>, seen: set<Id>, notified: bool, quiet: bool,
                    handled: bool, calm: bool, queue': seq<Id>, seen': set<Id>)
    requires Spreading(s, id, t, visited, queue, seen, notified, quiet) && |queue| > 0
    requires u in Outcomes(t, k, l, {}, StackOf(t))
    requires queue[0] in u.modules && u.modules[queue[0]].complete && u.modules[queue[0]].failed
    requires queue[0] in t.modules && handled == t.modules[queue[0]].errorback && (calm ==> u == Fail(t, queue[0]))
    requires queue[1..] <= queue' && NoRepeats(queue'[|queue| - 1..])
    requires var waiters := Waiters(u.inverse, queue[0]);
      && (forall x :: x in queue'[|queue| - 1..] <==> x in waiters && x !in seen)
      && (forall x :: x in seen' <==> x in seen || x in waiters)
      && queue' == queue[1..] + Fresh(waiters, seen)
    ensures Spreading(s, id, u, visited + [queue[0]], queue', seen', handled || notified, quiet && calm)
  {
    hide Consistent, Outcomes, Grown, Shape, Backwards, NoRepeats, WaitGraph, Reaches, Doomed, FailAll, Fresh, Wave,
        Handlers;
    assert (visited + queue)[|visited|] == queue[0];
    SpreadKeys(t, k, u, l);
    CalledLog(t, k, u, l, {}, StackOf(t));
    SpreadNext(s, id, visited, queue, seen, queue', seen', u.inverse);
    SpreadReaches(id, t, k, u, l, visited, queue, seen, seen');
    if quiet && calm {
      SpreadQuiet(s, visited, queue, seen, t, u, notified);
      WaveNext(s.inverse, id, visited, queue, seen, queue');
    }
    forall x | x in seen' ensures x in u.modules.Keys {
      if x in seen { assert x in t.modules.Keys; } else { assert x in Waiters(u.inverse, queue[0]); }
    }
  }

  lemma SpreadReaches(id: Id, t: State, k: seq<Action>, u: State, l: seq<Action>,
                      visited: seq<Id>, queue: seq<Id>, seen: set<Id>, seen': set<Id>)
    requires Doomed(t, id, visited, seen) && |queue| > 0 && queue[0] in seen && u in Outcomes(t, k, l, {}, StackOf(t))
    requires queue[0] in u.modules && u.modules[queue[0]].complete && u.modules[queue[0]].failed
    requires forall x :: x in seen' <==> x in seen || x in Waiters(u.inverse, queue[0])
    ensures Doomed(u, id, visited + [queue[0]], seen')
  {
    hide Consistent, Outcomes, Grown, Shape, Connects, IsPath, DeclaredGraph;
    var g, e := DeclaredGraph(u.h.notes), queue[0];
    CalledGraph(t, k, u, l, {}, StackOf(t));
    forall x | x in visited ensures x in u.modules && u.modules[x].complete && u.modules[x].failed {
      CalledModule(t, k, u, l, {}, StackOf(t), x);
    }
    forall x | x in seen' ensures x == id || Reaches(g, x, id) {
      if e != id { ReachesMono(DeclaredGraph(t.h.notes), g, e, id); }
      if x in seen {
        if x != id { ReachesMono(DeclaredGraph(t.h.notes), g, x, id); }
      } else {
        assert (x, e) in WaitGraph(u.inverse);
        EdgeReaches(g, x, e);
        if e != id { ReachesTrans(g, x, e, id); }
      }
    }
  }

  /** Waiting follows declared dependencies, and those stay. */
  lemma CalledGraph(s: State, n: seq<Action>, t: State, k: seq<Action>, own: set<Id>, stack: Stack)
    requires t in Outcomes(s, n, k, own, stack)
    ensures DeclaredGraph(s.h.notes) <= DeclaredGraph(t.h.notes) && WaitGraph(t.inverse) <= DeclaredGraph(t.h.notes)
  {
    hide Outcomes, DeclaredGraph, LiveGraph, WaitGraph;
    CallParts(s, n, t, k, own, stack);
    LiveIsDeclared(t);
    DeclaredMono(s.h.notes, t.h.notes);
  }

  /** The quiet part of a round. */
  lemma SpreadQuiet(s: State, visited: seq<Id>, queue: seq<Id>, seen: set<Id>, t: State, u: State, notified: bool)
    requires Frontier(visited, queue, seen) && |queue| > 0 && queue[0] in t.modules
    requires t == FailAll(s, visited) && u == Fail(t, queue[0])
    requires notified == Notified(s.modules, visited)
    ensures u == FailAll(s, visited + [queue[0]]) && u.inverse == s.inverse
    ensures (t.modules[queue[0]].errorback || notified) == Notified(s.modules, visited + [queue[0]])
  {
    hide FailAll, Frontier;
    FailAllNext(s, visited, queue[0]);
    FailAllFacts(s, visited);
    assert queue[0] in visited + [queue[0]];
    if Notified(s.modules, visited) {
      var x :| x in visited && x in s.modules && s.modules[x].errorback;
      assert x in visited + [queue[0]];
    }
  }

  lemma SpreadKeys(s: State, n: seq<Action>, t: State, k: seq<Action>)
    requires t in Outcomes(s, n, k, {}, StackOf(s))
    ensures s.modules.Keys <= t.modules.Keys
    ensures forall d, w :: w in Waiters(t.inverse, d) ==> w in t.modules
  {
    forall d, w | w in Waiters(t.inverse, d) ensures w in t.modules {
      AllWaitersHas(t.inverse, d, w);
    }
  }

  lemma FailEachNext(modules: Modules, visited: seq<Id>, x: Id)
    requires x in modules
    ensures var before := FailEach(modules, visited);
      FailEach(modules, visited + [x]) == before[x := before[x].(complete := true, failed := true)]
  {
  }

  lemma AppendNoRepeats(xs: seq<Id>, ys: seq<Id>)
    requires NoRepeats(xs) && NoRepeats(ys) && forall y :: y in ys ==> y !in xs
    ensures NoRepeats(xs + ys)
  {
    forall i, j | 0 <= i < j < |xs + ys| ensures (xs + ys)[i] != (xs + ys)[j] {
      if i < |xs| <= j { assert ys[j - |xs|] in ys; }
    }
  }

  /** One round of the walk, in which `element` is visited and its waiters queued. */
  lemma SpreadNext(s: State, id: Id, visited: seq<Id>, queue: seq<Id>, seen: set<Id>, queue': seq<Id>,
      seen': set<Id>, inverse: Inverse)
    requires |queue| > 0 && Frontier(visited, queue, seen)
    requires queue[1..] <= queue' && NoRepeats(queue'[|queue| - 1..])
    requires var waiters := Waiters(inverse, queue[0]);
      && (forall x :: x in queue'[|queue| - 1..] <==> x in waiters && x !in seen)
      && (forall x :: x in seen' <==> x in seen || x in waiters)
    ensures Frontier(visited + [queue[0]], queue', seen')
    ensures Backwards(s.inverse, id, visited, seen) && inverse == s.inverse ==>
        Backwards(s.inverse, id, visited + [queue[0]], seen')
  {
    var e, added := queue[0], queue'[|queue| - 1..];
    assert visited + queue == visited + [e] + queue[1..];
    assert queue' == queue[1..] + added;
    assert (visited + [e]) + queue' == (visited + queue) + added;
    AppendNoRepeats(visited + queue, added);
    if Backwards(s.inverse, id, visited, seen) && inverse == s.inverse {
      forall x | x in seen' ensures x == id || Reaches(WaitGraph(inverse), x, id) {
        if x !in seen {
          assert (x, e) in WaitGraph(inverse);
          EdgeReaches(WaitGraph(inverse), x, e);
          if e != id { ReachesTrans(WaitGraph(inverse), x, e, id); }
        }
      }
    }
  }

  lemma {:induction false} BackwardsPath(g: Graph, s: set<Id>, p: seq<Id>)
    requires IsPath(g, p) && p[|p| - 1] in s
    requires forall e :: e in g && e.1 in s ==> e.0 in s
    ensures p[0] in s
    decreases |p|
  {
    if |p| > 1 {
      assert IsPath(g, p[1..]) && p[1..][|p| - 2] == p[|p| - 1];
      BackwardsPath(g, s, p[1..]);
      assert (p[0], p[1]) in g;
    }
  }

  /** When the queue is empty the walk has seen exactly what leads to id. */
  lemma SpreadDone(s: State, id: Id, u: State, visited: seq<Id>, queue: seq<Id>, seen: set<Id>, notified: bool,
      quiet: bool)
    requires Spreading(s, id, u, visited, queue, seen, notified, quiet) && |queue| == 0
    ensures NoRepeats(visited) && id in visited
    ensures forall x :: x in visited ==> x in u.modules && u.modules[x].complete && u.modules[x].failed
    ensures quiet ==> forall x :: x in visited <==> x == id || Reaches(WaitGraph(s.inverse), x, id)
    ensures quiet ==> u == FailAll(s, visited) && notified == Notified(s.modules, visited)
    ensures quiet ==> visited == Wave(s.inverse, id, visited)
  {
    assert visited + queue == visited;
    var g := WaitGraph(s.inverse);
    if quiet {
      forall e | e in g && e.1 in seen ensures e.0 in seen {
        assert e.0 in Waiters(s.inverse, e.1);
      }
      forall x | Reaches(g, x, id) ensures x in visited {
        var p :| Connects(g, x, id, p);
        BackwardsPath(g, seen, p);
      }
    }
  }

  lemma SpreadFirst(s: State, id: Id, t: State, visited: seq<Id>, queue: seq<Id>, seen: set<Id>, notified: bool,
      quiet: bool)
    requires Spreading(s, id, t, visited, queue, seen, notified, quiet) && |queue| > 0
    ensures queue[0] in t.modules && queue[0] in seen
    ensures AtFault(t.h.faults, DeclaredGraph(t.h.notes), queue[0])
    ensures quiet ==> queue[0] in s.modules && t.modules[queue[0]].errorback == s.modules[queue[0]].errorback
    ensures quiet ==> queue[0] == id || Reaches(WaitGraph(s.inverse), queue[0], id)
  {
    assert (visited + queue)[|visited|] == queue[0];
    assert queue[0] in seen;
    FailAllFacts(s, visited);
  }

  /** Each round uses up a queued module, finds new ones, or lets foreign code act. */
  lemma SpreadProgress(s: State, id: Id, t: State, k: seq<Action>, u: State, l: seq<Action>,
                       visited: seq<Id>, queue: seq<Id>, seen: set<Id>, queue': seq<Id>, seen': set<Id>,
                         notified: bool, quiet: bool)
    requires u in Outcomes(t, k, l, {}, StackOf(t)) && |queue| > 0
    requires queue[1..] <= queue'
    requires seen <= seen'
    requires forall x :: x in queue'[|queue| - 1..] <==> x in seen' && x !in seen
    requires Spreading(s, id, u, visited + [queue[0]], queue', seen', notified, quiet)
    ensures |l| < |k| || u.modules.Keys - seen' < t.modules.Keys - seen
        || (u.modules.Keys - seen' == t.modules.Keys - seen && |queue'| < |queue|)
  {
    hide Outcomes, Consistent, Grown;
    CalledFacts(t, k, u, l, {}, StackOf(t));
    if |l| == |k| {
      forall x | x in u.modules.Keys - seen' ensures x in t.modules.Keys - seen { }
      if |queue'| >= |queue| {
        var x := queue'[|queue| - 1..][0];
        assert x in queue'[|queue| - 1..];
        assert x in t.modules.Keys - seen && x !in u.modules.Keys - seen';
      } else {
        var added := queue'[|queue| - 1..];
        forall x | x in seen' ensures x in seen { assert x !in added; }
      }
    }
  }

  /** The load error of id has been reported, and there is an entry for id. An entry
      for an unknown id counts as being worked on until it has failed. */
  function Stubbed(s: State, id: Id): State
  {
    Blame(if id in s.modules then s else Define(s, id, [], Factory, false), id)
  }

  lemma StubStep(s: State, id: Id)
    requires Inv(s) && Unasked(s)
    ensures var t := Stubbed(s, id);
      && t in Good() && t.modules == WithStub(s.modules, id) && t.inverse == s.inverse && t.known == s.known
      && id in t.modules && id in t.h.faults && Grows(s, t, {})
  {
    hide Consistent, Grown, Shape;
    var d := if id in s.modules then s else Define(s, id, [], Factory, false);
    InvShape(s);
    if id !in s.modules { DefineKeeps(s, id, [], Factory, false); } else { GrowsRefl(s); }
    BlameKeeps(d, id);
    GrowsTrans(s, d, Stubbed(s, id), {}, {}, {});
  }

  lemma StubExplained(s: State, id: Id)
    ensures Derived(s, Stubbed(s, id), [LoadErrorAction(id)]) && Since(s, Stubbed(s, id))
  {
  }

  lemma StubRests(s: State, n: seq<Action>, id: Id, u: State, k: seq<Action>)
    requires Inv(s) && Unasked(s)
    requires u in Outcomes(Stubbed(s, id), n, k, {}, StackOf(Stubbed(s, id)))
    requires IsComplete(u.modules, id) && u.modules[id].failed
    ensures Rest(u, s.h.busy) in Outcomes(s, [LoadErrorAction(id)] + n, k, {}, StackOf(s))
  {
    hide Consistent, Outcomes, Grown, Since, Derived, Reported, Tail, Consumed, Shape;
    var t, v, a := Stubbed(s, id), Rest(u, s.h.busy), LoadErrorAction(id);
    StubStep(s, id);
    StubExplained(s, id);
    CallParts(t, n, u, k, {}, StackOf(t));
    GrowsTrans(s, t, u, {}, {}, {});
    GrownStatus(s, t, {});
    SinceTrans(s, t, u);
    ConsumedFirst(a, n, k);
    DerivedTrans(s, t, u, [a], Consumed(n, k));
    MoreFaults(t, u);
    ErrorReported(u, id, Consumed(n, k));
    InvShape(u);
    RestKeeps(u, s.h.busy);
    GrowsTrans(s, u, v, {}, {}, {});
    StubRest(s, u, s.h.busy, [a] + Consumed(n, k));
    Called(s, [a] + n, v, k, {}, StackOf(s));
  }

  lemma ErrorReported(u: State, id: Id, c: seq<Action>)
    requires Reported(u, c) && id in u.modules && u.modules[id].failed && id in u.h.faults
    ensures Reported(u, [LoadErrorAction(id)] + c)
  {
  }

  lemma StubRest(s: State, u: State, busy: set<Id>, c: seq<Action>)
    requires Since(s, u) && Explained(s, u, c)
    ensures Since(s, Rest(u, busy)) && Explained(s, Rest(u, busy), c)
  {
  }

  function Unfinished(modules: Modules): set<Id>
  {
    set m | m in modules && !modules[m].complete
  }

  const Nothing: set<Id> := {}

  lemma NoWay()
    ensures Acyclic({})
  {
    forall x ensures !Reaches({}, x, x) {
      if Reaches({}, x, x) { var _ := FirstEdge({}, x, x); }
    }
  }

  lemma InitialLedger()
    ensures Ledger(Initial) && Listing(Initial)
  {
  }

  lemma InitialInv()
    ensures Inv(Initial)
  {
    hide Acyclic, Ledger, Listing;
    assert WaitGraph(Initial.inverse) == {};
    NoWay();
    InitialLedger();
  }

  /** A counter at zero means that `_resolve` is done, and it stays at zero. */
  lemma CounterFacts(s: State, m: Id)
    requires Inv(s) && m in s.modules
    ensures Shape(s) && s.modules[m].unresolved >= 0
    ensures s.modules[m].dependencies.Listed? ==> s.modules[m].dependencies.list == s.h.notes[m].declared
    ensures s.modules[m].unresolved == 0 ==> Due0(s, m)
    ensures !s.modules[m].complete ==> m !in s.h.running && m !in s.h.providing
    ensures !s.modules[m].complete && m !in s.h.busy ==>
      s.h.notes[m].next == |s.h.notes[m].declared| && s.modules[m].unresolved > 0
  {
  }

  lemma Due0There(s: State, m: Id)
    requires Inv(s) && Due0(s, m)
    ensures Shape(s) && m in s.modules
  {
  }

  lemma ZeroStays(s: State, t: State, m: Id)
    requires Inv(s) && Inv(t) && Grows(s, t, {}) && Due0(s, m)
    ensures Due0(t, m)
  {
    assert s.h.due[m] == 0;
  }

  class ModuleManager {
    var modules: Modules
    var known: set<Id>
    var inverse: Inverse
    var inversePlugins: Plugins
    var hasDependencyCycle: bool
    var globalErrors: int
    var script: seq<Action>
    ghost var h: History

    ghost function St(): State
      reads this
    {
      State(modules, known, inverse, inversePlugins, hasDependencyCycle, h)
    }

    ghost predicate Valid()
      reads this
    {
      St() in Good()
    }

    constructor (script: seq<Action>)
      ensures Valid() && St() == Initial && this.script == script
      ensures !hasDependencyCycle && globalErrors == 0
    {
      modules, known, inverse, inversePlugins := map[], {}, map[], map[];
      hasDependencyCycle, globalErrors := false, 0;
      h := Initial.h;
      this.script := script;
      InitialInv();
    }

    /** Breadth-first search along listed dependencies. */
    method HasDependencyPath(from: Id, to: Id) returns (found: bool)
      ensures found <==> Reaches(LiveGraph(modules), from, to)
    {
      ghost var g := LiveGraph(modules);
      if from !in modules {
        if Reaches(g, from, to) { var z := FirstEdge(g, from, to); }
        return false;
      }
      var inQueue: set<Id> := {from};
      var queue: seq<Id> := [from];
      while |queue| > 0
        invariant from in inQueue && inQueue <= modules.Keys
        invariant forall x :: x in queue ==> x in inQueue
        invariant forall x :: x in inQueue ==> x == from || Reaches(g, from, x)
        invariant forall e :: e in g && e.0 in inQueue && e.0 !in queue ==>
                    e.1 != to && (e.1 in modules ==> e.1 in inQueue)
        decreases modules.Keys - inQueue, |queue|
      {
        var element := queue[0];
        ghost var rest := queue[1..];
        queue := queue[1..];
        if modules[element].dependencies.Listed? {
          var dependencies := modules[element].dependencies.list;
          ghost var before := inQueue;
          for i := 0 to |dependencies|
            invariant from in inQueue && inQueue <= modules.Keys && before <= inQueue
            invariant inQueue == before ==> queue == rest
            invariant forall x :: x in queue ==> x in inQueue
            invariant forall x :: x in inQueue ==> x == from || Reaches(g, from, x)
            invariant forall j :: 0 <= j < i ==>
              DepId(dependencies[j]) != to && (DepId(dependencies[j]) in modules ==> DepId(dependencies[j]) in inQueue)
            invariant forall e :: e in g && e.0 in inQueue && e.0 !in queue && e.0 != element ==>
                e.1 != to && (e.1 in modules ==> e.1 in inQueue)
          {
            var d := DepId(dependencies[i]);
            assert (element, d) in g;
            EdgeReaches(g, element, d);
            if element != from { ReachesTrans(g, from, element, d); }
            if d == to { return true; }
            if d in modules && d !in inQueue {
              inQueue := inQueue + {d};
              queue := queue + [d];
            }
          }
        }
      }
      if Reaches(g, from, to) {
        var p :| Connects(g, from, to, p);
        SearchExhausted(g, inQueue, to, p);
      }
      return false;
    }

    // The assignments of the methods below, each with its effect on the state.

    method AddModule(id: Id, deps: seq<Dep>, callback: Callback, errorback: bool)
      requires id !in modules
      modifies `modules, `h
      ensures St() == Define(old(St()), id, deps, callback, errorback)
    {
      modules := modules[id := Module(Listed(deps), callback, errorback, |deps|, false, false)];
      h := h.(notes := h.notes[id := Note(deps, callback, errorback, 0)], busy := h.busy + {id});
    }

    method SkipDependency(m: Id)
      requires m in modules && m in h.notes
      modifies `modules, `h
      ensures St() == Skip(old(St()), m)
    {
      modules := modules[m := modules[m].(unresolved := modules[m].unresolved - 1)];
      h := h.(notes := Advance(old(St()), m));
    }

    method DropDependency(m: Id)
      requires m in modules && m in h.notes
      modifies `modules, `h, `hasDependencyCycle
      ensures St() == Drop(old(St()), m)
    {
      hasDependencyCycle := true;
      SkipDependency(m);
      h := h.(dropped := h.dropped + {(m, old(h.notes[m].next))});
    }

    method RecordDependency(m: Id, d: Id)
      requires m in h.notes && 0 <= h.notes[m].next < |h.notes[m].declared| && d == DepId(Current(St(), m))
      modifies `inverse, `h
      ensures St() == Record(old(St()), m)
    {
      inverse := inverse[d := Waiters(inverse, d) + [m]];
      h := h.(notes := Advance(old(St()), m), due := h.due + multiset{m}, asking := h.asking + {d},
              opening := h.opening + Opens(old(St()), m));
    }

    method MarkKnown(d: Id, ghost via: Via)
      modifies `known, `h
      ensures St() == LoaderState.Request(old(St()), d, via)
    {
      known := known + {d};
      h := h.(asking := h.asking - {d}, requests := h.requests + [d], vias := h.vias[d := via], opening := {});
    }

    ghost method MarkAsked(d: Id)
      modifies `h
      ensures St() == Ask(old(St()), d)
    {
      h := h.(asking := h.asking - {d}, opening := {});
    }

    method KeepForPlugin(r: Id, p: Id)
      modifies `inversePlugins, `h
      ensures St() == Enlist(old(St()), r, p)
    {
      inversePlugins := inversePlugins[p := PluginWaiters(inversePlugins, p) + [Plugin(r, p)]];
      h := h.(asking := h.asking - {r} + {p}, resources := h.resources + {r});
    }

    ghost method MarkOffered(r: Id, p: Id)
      modifies `h
      ensures St() == Offer(old(St()), r, p) && h.notes == old(h.notes)
    {
      h := h.(asking := h.asking - {r}, opening := {}, resources := h.resources + {r},
              offers := h.offers + multiset{Plugin(r, p)});
    }

    method FetchResources(p: Id) returns (resources: seq<Dep>)
      modifies `inversePlugins, `h
      ensures resources == PluginWaiters(old(inversePlugins), p) && St() == Fetch(old(St()), p)
    {
      resources := PluginWaiters(inversePlugins, p);
      inversePlugins := inversePlugins - {p};
      h := h.(offers := h.offers + multiset(resources), providing := h.providing - {p});
    }

    ghost method MarkGranted(dep: Dep)
      modifies `h
      ensures St() == Grant(old(St()), dep) && modules == old(modules) && known == old(known)
    {
      h := h.(offers := h.offers - multiset{dep});
    }

    ghost method MarkBlamed(m: Id)
      modifies `h
      ensures St() == Blame(old(St()), m)
    {
      h := h.(faults := h.faults + {m});
    }

    method MarkFailed(m: Id)
      requires m in modules
      modifies `modules, `h
      ensures St() == Fail(old(St()), m)
    {
      h := h.(done := if modules[m].complete then h.done else h.done + [m],
              called := h.called + if modules[m].errorback then [m] else []);
      modules := modules[m := modules[m].(complete := true, failed := true)];
    }

    method MarkComplete(m: Id)
      requires m in modules
      modifies `modules, `h
      ensures St() == Begin(old(St()), m)
    {
      ghost var starts := if modules[m].callback.Factory? then [m] else [];
      modules := modules[m := modules[m].(complete := true)];
      h := h.(running := h.running + {m}, providing := h.providing + {m}, done := h.done + [m],
        log := h.log + starts, starts := h.starts + (if |starts| > 0 then [|h.done|] else []));
    }

    method Release(m: Id, threw: bool)
      requires m in modules
      modifies `modules, `h
      ensures St() == End(old(St()), m, threw)
    {
      modules := modules[m := modules[m].(dependencies := Released, callback := NoCallback, errorback := false,
        failed := modules[m].failed || threw)];
      h := h.(faults := if threw then h.faults + {m} else h.faults);
    }

    method TakeWaiters(m: Id) returns (waiters: seq<Id>)
      modifies `inverse, `h
      ensures waiters == Waiters(old(inverse), m) && St() == Take(old(St()), m)
    {
      waiters := Waiters(inverse, m);
      inverse := inverse - {m};
      h := h.(pending := h.pending + multiset(waiters), running := h.running - {m});
    }

    method CountDown(x: Id)
      requires x in modules
      modifies `modules, `h
      ensures St() == Wake(old(St()), x)
    {
      modules := modules[x := modules[x].(unresolved := modules[x].unresolved - 1)];
      h := h.(due := h.due - multiset{x}, pending := h.pending - multiset{x}, busy := h.busy + {x},
              woken := h.woken + [x]);
    }

    ghost method RestTo(busy: set<Id>)
      modifies `h
      ensures St() == Rest(old(St()), busy) && h.woken == old(h.woken)
    {
      h := h.(busy := busy);
    }

    /** Foreign code: acts until it returns or the script is exhausted. */
    method RunForeign() returns (threw: bool)
      requires Valid()
      modifies this
      ensures St() in Outcomes(old(St()), old(script), script, {}, StackOf(old(St())))
      ensures |old(script)| > 0 ==> |script| < |old(script)|
      ensures threw ==> Return(true) in Consumed(old(script), script)
      ensures threw || |script| > 0 ==> EndsIn(old(script), script, threw)
      ensures Silent(Consumed(old(script), script)) ==> St() == old(St()) && globalErrors == old(globalErrors)
      ensures Silent(Consumed(old(script), script)) ==> |script| == LeftAfter(|old(script)|, 1)
      ensures ReturnsAtOnce(old(script)) ==>
        && St() == old(St()) && globalErrors == old(globalErrors) && threw == ThrowsAtOnce(old(script))
        && script == if old(script) == [] then [] else old(script)[1..]
      decreases |script|, Nothing, 0
    {
      hide Consistent, Outcomes, Good, Silent, Tail, Consumed, StackOf;
      ghost var s, n, errors := St(), script, globalErrors;
      threw := false;
      CalledRefl(s, n, {});
      ConsumedNone(n);
      while |script| > 0
        invariant St() in Outcomes(s, n, script, {}, StackOf(s))
        invariant Tail(script, n) && (script == n || |script| < |n|)
        invariant Silent(Consumed(n, script)) ==> St() == s && globalErrors == errors && script == n
        invariant ReturnsAtOnce(n) ==> script == n && St() == s && globalErrors == errors
        decreases |script|
      {
        ghost var t, k := St(), script;
        CalledFacts(s, n, t, k, {}, StackOf(s));
        var action := script[0];
        script := script[1..];
        ConsumedNext(n, k);
        assert [action] + script == k;
        match action {
          case Return(r) =>
            CalledIdle(s, n, t, k, {}, StackOf(s));
            ConsumedReturn(n, k);
            TakenLast(n, k);
            return r;
          case DefineAction(id, deps, callback, errorback) =>
            DefineModule(id, deps, callback, errorback);
          case LoadErrorAction(id) =>
            ghost var visited := OnLoadError(id);
        }
        CalledTrans(s, n, t, k, St(), script, {}, StackOf(s), {}, StackOf(t));
        CalledFacts(t, k, St(), script, {}, StackOf(t));
        ConsumedLoud(n, k, script);
      }
    }

    /** Foreign code when no call is in progress. */
    method RunNext()
      requires Valid() && |script| > 0
      modifies this
      ensures St() in Outcomes(old(St()), old(script), script, {}, StackOf(old(St())))
      ensures |script| < |old(script)|
    {
      var _ := RunForeign();
    }

    /** A second definition of the same module is ignored. */
    method DefineModule(id: Id, deps: seq<Dep>, callback: Callback, errorback: bool)
      requires Valid()
      modifies this
      ensures St() in Outcomes(old(St()), [DefineAction(id, deps, callback, errorback)] + old(script), script, {},
                               StackOf(old(St())))
      ensures |script| <= |old(script)|
      ensures id in modules && id in h.notes
      ensures id !in old(modules) ==>
        h.notes[id].declared == deps && h.notes[id].origin == callback && h.notes[id].handler == errorback
      ensures id in old(modules) ==> St() == old(St()) && script == old(script)
      decreases |script|, Unfinished(modules) + {id}, 10
    {
      hide Consistent;
      ghost var s, n := St(), script;
      if id in modules {
        CalledRefl(s, [DefineAction(id, deps, callback, errorback)] + n, {});
        var own := [DefineAction(id, deps, callback, errorback)] + n;
        CalledIdle(s, own, s, own, {}, StackOf(s));
        return;
      }
      DefineKeeps(s, id, deps, callback, errorback);
      AddModule(id, deps, callback, errorback);
      Resolve(id, s.h.busy);
      DefineFinished(s, id, deps, callback, errorback, n, St(), script);
    }

    /** `_loadModule`: a module is requested once; the script loader is foreign. */
    method LoadModule(id: Id)
      requires Inv(St()) && h.asking <= {id} && Wanted(h.notes, id) && Entrusted(St(), id)
      modifies this
      ensures St() in Outcomes(old(St()), old(script), script, {}, StackOf(old(St())))
      ensures id in modules || id in known
      ensures forall r :: KeptOrKnown(old(St()), r, id) ==> PassedOn(St(), r, id)
      ensures id in old(modules) || id in old(known) ==> St() == Ask(old(St()), id) && script == old(script)
      ensures id !in old(modules) && id !in old(known) ==>
        && old(h.requests) + [id] <= h.requests && id in h.vias && h.vias[id] == ScriptLoader
        && (|old(script)| > 0 ==> |script| < |old(script)|)
      decreases |script|, Nothing, 1
    {
      hide Consistent, Outcomes, Grown, StackOf, Ask, PassedOn, KeptOrKnown, Entrusted;
      ghost var s, n := St(), script;
      if id in modules || id in known {
        AskStep(s, n, id);
        MarkAsked(id);
        AskedPasses(s, id);
        return;
      }
      RequestStep(s, n, id, ScriptLoader);
      MarkKnown(id, ScriptLoader);
      ghost var t := St();
      KnownPasses(s, t, id);
      var _ := RunForeign();
      CalledKnown(t, n, St(), script, {}, StackOf(s));
      CalledPassed(t, n, St(), script, {}, StackOf(s));
      CalledTrans(s, n, t, n, St(), script, {}, StackOf(s), {}, StackOf(s));
    }

    /** The plugin is complete: it is asked, once, to provide the resource. */
    method LoadPluginDependency(dependency: Dep)
      requires Valid() && dependency.Plugin? && Providable(St(), dependency)
      modifies this
      ensures St() in Outcomes(old(St()), old(script), script, {}, StackOf(old(St())))
      ensures DepId(dependency) in modules || DepId(dependency) in known
      ensures DepId(dependency) in old(modules) || DepId(dependency) in old(known) ==>
        St() == old(St()) && script == old(script)
      ensures DepId(dependency) !in old(modules) && DepId(dependency) !in old(known) ==>
        && old(h.requests) + [DepId(dependency)] <= h.requests
        && DepId(dependency) in h.vias && h.vias[DepId(dependency)] == ViaPlugin(old(St()), dependency)
        && (|old(script)| > 0 ==> |script| < |old(script)|)
      decreases |script|, Nothing, 1
    {
      hide Consistent, Outcomes, Grown, StackOf, Entrusted, Providable;
      ghost var s, n := St(), script;
      CalledRefl(s, n, {});
      if DepId(dependency) in modules || DepId(dependency) in known {
        return;
      }
      ProvidableVouched(s, dependency);
      RequestStep(s, n, DepId(dependency), ViaPlugin(s, dependency));
      MarkKnown(DepId(dependency), ViaPlugin(s, dependency));
      ghost var t := St();
      var _ := RunForeign();
      CalledKnown(t, n, St(), script, {}, StackOf(s));
      CalledTrans(s, n, t, n, St(), script, {}, StackOf(s), {}, StackOf(s));
    }

    /** Examines the dependencies of m in order. */
    method Resolve(m: Id, ghost others: set<Id>)
      requires Valid()
      requires m in modules && modules[m].dependencies.Listed?
      requires h.busy == others + {m} && m in h.notes && h.notes[m].next == 0
      modifies this
      ensures St() in Outcomes(old(St()), old(script), script, {m}, StackOf(old(St())).(busy := others))
      ensures IsComplete(modules, m) || (m in h.notes && h.notes[m].next == |h.notes[m].declared|)
      decreases |script|, Unfinished(modules), 9
    {
      hide Consistent, Outcomes, Grown, Shape, Inv;
      ghost var s, n := St(), script;
      var stop := ResolveEach(m);
      ghost var t, k := St(), script;
      CalledFacts(s, n, t, k, {m}, StackOf(s));
      FinishResolving(m, stop, others);
      CalledTrans(s, n, t, k, St(), script, {m}, StackOf(s), {}, StackOf(t).(busy := others));
    }

    /** The loop in `_resolve`. */
    method ResolveEach(m: Id) returns (stop: bool)
      requires Valid()
      requires m in modules && modules[m].dependencies.Listed?
      requires m in h.busy && m in h.notes && h.notes[m].next == 0
      modifies this
      ensures St() in Outcomes(old(St()), old(script), script, {m}, StackOf(old(St())))
      ensures m in modules && m in h.notes
      ensures if stop then modules[m].complete else h.notes[m].next == |h.notes[m].declared|
      decreases |script|, Nothing, 8
    {
      hide Consistent, Outcomes, Grown, Shape, DealtWith, Unfinished;
      ghost var s, n := St(), script;
      CalledRefl(s, n, {m});
      CounterFacts(s, m);
      var dependencies := modules[m].dependencies.list;
      stop := false;
      for i := 0 to |dependencies|
        invariant St() in Outcomes(s, n, script, {m}, StackOf(s))
        invariant m in modules && m in h.notes
        invariant h.notes[m].declared == dependencies && h.notes[m].next == i
      {
        ghost var t, k := St(), script;
        CalledFacts(s, n, t, k, {m}, StackOf(s));
        stop := ResolveOne(m, dependencies[i]);
        CalledTrans(s, n, t, k, St(), script, {m}, StackOf(s), {m}, StackOf(s));
        if stop { return; }
      }
    }

    /** The end of `_resolve`. */
    method FinishResolving(m: Id, stopped: bool, ghost others: set<Id>)
      requires Valid() && m in modules && h.busy == others + {m}
      requires if stopped then modules[m].complete else m in h.notes && h.notes[m].next == |h.notes[m].declared|
      modifies this
      ensures St() in Outcomes(old(St()), old(script), script, {}, StackOf(old(St())).(busy := others))
      ensures IsComplete(modules, m) || (m in h.notes && h.notes[m].next == |h.notes[m].declared|)
      decreases |script|, Unfinished(modules), 4
    {
      hide Consistent, Outcomes, Good, Grown, Shape, StackOf;
      ghost var s, n := St(), script;
      CounterFacts(s, m);
      CalledRefl(s, n, {});
      if !stopped && modules[m].unresolved == 0 {
        OnModuleComplete(m);
      }
      Rested(s, n, St(), script, m, others);
      RestTo(others);
    }

    /** One round of the loop in `_resolve`; stops if the dependency has failed. */
    method ResolveOne(m: Id, dependency: Dep) returns (stop: bool)
      requires Valid()
      requires m in modules && m in h.busy && m in h.notes
      requires 0 <= h.notes[m].next < |h.notes[m].declared| && dependency == Current(St(), m)
      modifies this
      ensures St() in Outcomes(old(St()), old(script), script, {m}, StackOf(old(St())))
      ensures Stepped(old(St()), old(script), m, dependency, stop, St(), script)
      decreases |script|, Nothing, 7
    {
      hide Consistent, Outcomes, Good, Grown, Shape, Stepped, DealtWith, Skip, Drop, Record, AskedFor;
      ghost var s, n := St(), script;
      var d := DepId(dependency);
      CounterFacts(s, m);
      if Special(dependency) || (IsComplete(modules, d) && !modules[d].failed) {
        SkipStep(s, n, m);
        SkipDeals(s, n, m, dependency);
        SkipDependency(m);
        return false;
      }
      if IsComplete(modules, d) {
        CurrentDeclared(s, m);
        FailureSpreads(s, m, d);
        FailInsteadOf(m);
        FailDeals(s, n, m, dependency, St(), script);
        return true;
      }
      var leadsBack := HasDependencyPath(d, m);
      if leadsBack {
        DropStep(s, n, m);
        DropDeals(s, n, m, dependency);
        DropDependency(m);
        return false;
      }
      WaitFor(m, dependency);
      WaitDeals(s, n, m, dependency, St(), script);
      stop := false;
    }

    /** m joins the list of the dependency, which is then asked for. */
    method WaitFor(m: Id, dependency: Dep)
      requires Valid() && m in modules && m in h.busy && m in h.notes
      requires 0 <= h.notes[m].next < |h.notes[m].declared| && dependency == Current(St(), m)
      requires !Special(dependency) && !IsComplete(modules, DepId(dependency))
      requires !Reaches(LiveGraph(modules), DepId(dependency), m)
      modifies this
      ensures St() in Outcomes(old(St()), old(script), script, {m}, StackOf(old(St())))
      ensures St() in Outcomes(Record(old(St()), m), old(script), script, {}, StackOf(old(St())))
      ensures m in modules && m in h.notes && h.notes[m].declared == old(h.notes[m].declared)
      ensures h.notes[m].next == old(h.notes[m].next) + 1 && AskedFor(St(), dependency)
      decreases |script|, Nothing, 6
    {
      hide Consistent, Outcomes, Good, Grown, Shape, AskedFor, OpeningOnly, PassedOn, Reaches, Acyclic, Opens;
      ghost var s, n := St(), script;
      CounterFacts(s, m);
      CurrentDeclared(s, m);
      RecordKeeps(s, m);
      AllReached(s, DepId(dependency));
      RecordedOpens(s, m);
      RecordDependency(m, DepId(dependency));
      Request(dependency);
      Requested(s, n, m, St(), script);
    }

    /** A failed dependency fails m, without looking at the rest. */
    method FailInsteadOf(m: Id)
      requires Valid() && m in modules && AtFault(h.faults, DeclaredGraph(h.notes), m)
      modifies this
      ensures St() in Outcomes(old(St()), old(script), script, {m}, StackOf(old(St())))
      ensures m in modules && m in h.notes && modules[m].complete && modules[m].failed
      ensures h.notes[m].declared == old(St()).h.notes[m].declared
      decreases |script|, Nothing, 2
    {
      hide Consistent, Outcomes, Good, Grown, Shape, StackOf;
      ghost var s, n := St(), script;
      CalledRefl(s, n, {m});
      var _ := OnDependencyError(m);
      CalledModule(s, n, St(), script, {}, StackOf(s), m);
      CalledTrans(s, n, s, n, St(), script, {m}, StackOf(s), {}, StackOf(s));
    }

    /** A dependency that is now waited for is asked for: from the loader, or
        from its plugin as soon as that is complete. */
    method Request(dependency: Dep)
      requires Inv(St()) && !Special(dependency) && h.asking == {DepId(dependency)} && OpeningOnly(St(), dependency)
      requires Reached(St(), DepId(dependency)) && DeclaredBy(h.notes, dependency)
      modifies this
      ensures St() in Outcomes(old(St()), old(script), script, {}, StackOf(old(St())))
      ensures AskedFor(St(), dependency)
      decreases |script|, Nothing, 5
    {
      ghost var s, n := St(), script;
      match dependency {
        case Plugin(id, pluginId) =>
          if IsComplete(modules, pluginId) {
            Provide(id, pluginId);
          } else {
            EnlistKeeps(s, id, pluginId);
            PluginWanted(s, id, pluginId);
            KeepForPlugin(id, pluginId);
            LoadModule(pluginId);
            Enlisted(s, n, id, pluginId, St(), script);
          }
        case Regular(id) =>
          RegularWanted(s, id);
          LoadModule(id);
      }
    }

    /** The plugin is there already. */
    method Provide(id: Id, pluginId: Id)
      requires Inv(St()) && h.asking == {id} && Reached(St(), id) && DeclaredBy(h.notes, Plugin(id, pluginId))
      requires IsComplete(modules, pluginId) && OpeningOnly(St(), Plugin(id, pluginId))
      modifies this
      ensures St() in Outcomes(old(St()), old(script), script, {}, StackOf(old(St())))
      ensures PassedOn(St(), id, pluginId)
      decreases |script|, Nothing, 4
    {
      hide Consistent, Outcomes, Grown, Offer, Grant;
      ghost var s, n := St(), script;
      OfferStep(s, n, id, pluginId);
      MarkOffered(id, pluginId);
      ghost var t := St();
      LoadKept(Plugin(id, pluginId));
      assert s.h.offers + multiset{Plugin(id, pluginId)} - multiset{Plugin(id, pluginId)} == s.h.offers;
      CalledTrans(s, n, t, n, St(), script, {}, StackOf(t), {}, StackOf(s));
      CalledKnown(s, n, St(), script, {}, StackOf(s));
    }

    /** A kept resource is asked for. */
    method LoadKept(dep: Dep)
      requires Valid() && dep.Plugin? && Providable(St(), dep)
      modifies this
      ensures
        var outer := StackOf(old(St())).(offers := old(h.offers) - multiset{dep});
        St() in Outcomes(old(St()), old(script), script, {}, outer)
      ensures DepId(dep) in modules || DepId(dep) in known
      decreases |script|, Nothing, 3
    {
      hide Consistent, Outcomes, Good, Grown, Grant, Providable;
      ghost var s, n := St(), script;
      LoadPluginDependency(dep);
      ghost var u, k := St(), script;
      CalledFacts(s, n, u, k, {}, StackOf(s));
      GrantStep(u, k, dep);
      MarkGranted(dep);
      CalledTrans(s, n, u, k, St(), k, {}, StackOf(s), {}, StackOf(s).(offers := s.h.offers - multiset{dep}));
    }

    /** Everything m waited for is there: run its factory, then wake, one at a
        time, the modules that waited for it. */
    method OnModuleComplete(m: Id)
      requires Valid() && Due0(St(), m)
      modifies this
      ensures St() in Outcomes(old(St()), old(script), script, {}, StackOf(old(St())))
      ensures IsComplete(modules, m)
      ensures old(modules[m].complete) ==> St() == old(St()) && script == old(script)
      ensures !old(modules[m].complete) ==>
        && modules[m].dependencies.Released? && Waiters(inverse, m) == [] && PluginWaiters(inversePlugins, m) == []
        && (old(modules[m].callback.Factory?) ==>
              old(h.log) + [m] <= h.log && (|old(script)| > 0 ==> |script| < |old(script)|))
      decreases |script|, Unfinished(St().modules), 1
    {
      hide Consistent, Outcomes, Grown, Shape, Due0, Begin, End, Wake;
      ghost var s, n := St(), script;
      CalledRefl(s, n, {});
      Due0There(s, m);
      if modules[m].complete {
        return;
      }
      CounterFacts(s, m);
      assert m in Unfinished(modules);
      Complete(m);
      CalledFacts(s, n, St(), script, {}, Completing(s, m));
      WakeDependents(m, s, n);
    }

    /** Fetches and clears the list of waiters of m, wakes them, and lets a
        plugin provide what it was waited for. */
    method WakeDependents(m: Id, ghost s: State, ghost n: seq<Action>)
      requires m in s.modules && m in Unfinished(s.modules) && IsComplete(modules, m)
      requires St() in Outcomes(s, n, script, {}, Completing(s, m)) && m !in s.h.running && m !in s.h.providing
      modifies this
      ensures St() in Outcomes(s, n, script, {}, StackOf(s))
      ensures IsComplete(modules, m) && Waiters(inverse, m) == [] && PluginWaiters(inversePlugins, m) == []
      ensures old(modules[m].dependencies.Released?) ==> modules[m].dependencies.Released?
      ensures old(h.log) <= h.log && |script| <= |old(script)|
      decreases |script|, Unfinished(modules), 5
    {
      hide Consistent, Outcomes, Good, Grown, Shape;
      ghost var t, k := St(), script;
      TakeStep(s, n, t, k, m);
      var inverseDeps := TakeWaiters(m);
      ghost var u := St();
      WakeAll(inverseDeps);
      ghost var v, l := St(), script;
      ghost var woken := StackOf(s).(providing := s.h.providing + {m});
      assert StackOf(u).(pending := u.h.pending - multiset(inverseDeps)) == woken;
      CalledFacts(u, k, v, l, {}, woken);
      CalledComplete(u, k, v, l, {}, woken, m);
      CalledLog(u, k, v, l, {}, woken);
      CalledTrans(s, n, u, k, v, l, {}, StackOf(u), {}, woken);
      CalledFacts(s, n, v, l, {}, woken);
      LoadResources(m);
      CalledComplete(v, l, St(), script, {}, StackOf(s), m);
      CalledLog(v, l, St(), script, {}, StackOf(s));
      CalledFacts(v, l, St(), script, {}, StackOf(s));
      CalledTrans(s, n, v, l, St(), script, {}, woken, {}, StackOf(s));
    }

    /** `Module.complete`. */
    method Complete(m: Id)
      requires Valid() && Due0(St(), m) && !modules[m].complete
      modifies this
      ensures St() in Outcomes(old(St()), old(script), script, {}, Completing(old(St()), m))
      ensures IsComplete(modules, m) && modules[m].dependencies.Released?
      ensures old(h.done) + [m] <= h.done && (old(modules[m].callback.Factory?) ==> old(h.log) + [m] <= h.log)
      ensures old(modules[m].callback.Factory?) && |old(script)| > 0 ==> |script| < |old(script)|
      ensures old(modules[m].callback.Factory?) && |script| > 0 ==>
        EndsIn(old(script), script, true) || EndsIn(old(script), script, false)
      ensures old(modules[m].callback.Factory?) && |script| > 0 && EndsIn(old(script), script, true) ==>
        modules[m].failed && m in h.faults
      ensures !old(modules[m].callback.Factory?) ==>
        St() == End(Begin(old(St()), m), m, false) && script == old(script) && globalErrors == old(globalErrors)
      ensures old(modules[m].callback.Factory?) && ReturnsAtOnce(old(script)) ==>
        var threw := ThrowsAtOnce(old(script));
        St() == End(Begin(old(St()), m), m, threw) && globalErrors == old(globalErrors) + if threw then 1 else 0
      decreases |script|, Nothing, 1
    {
      hide Consistent, Outcomes, Good, Grown, Shape, StackOf, Begin;
      ghost var s, n := St(), script;
      BeginStep(s, n, m);
      var callback := modules[m].callback;
      MarkComplete(m);
      var threw := false;
      if callback.Factory? {
        threw := RunForeign();
      }
      if threw {
        globalErrors := globalErrors + 1;
      }
      CompleteEnds(s, n, m, St(), script, threw);
      Release(m, threw);
    }

    /** The walk over a list of waiters. */
    method WakeAll(waiters: seq<Id>)
      requires Valid() && multiset(waiters) <= h.pending
      modifies this
      ensures St() in Outcomes(old(St()), old(script), script, {},
          StackOf(old(St())).(pending := old(St()).h.pending - multiset(waiters)))
      ensures WokenInOrder(waiters, old(h.woken), h.woken)
      decreases |script|, Unfinished(St().modules), 3
    {
      hide Consistent, Outcomes, Good, Grown, Shape, Split, WokenInOrder;
      ghost var s, n := St(), script;
      CalledRefl(s, n, {});
      NoneWoken(h.woken);
      assert waiters[..0] == [];
      ghost var left := s.h.pending;
      SplitStart(left, waiters);
      for i := 0 to |waiters|
        invariant St() in Outcomes(s, n, script, {}, StackOf(s).(pending := left))
        invariant Split(s.h.pending, waiters, i, left)
        invariant WokenInOrder(waiters[..i], s.h.woken, h.woken)
      {
        ghost var t, k := St(), script;
        CalledFacts(s, n, t, k, {}, StackOf(s).(pending := left));
        SplitNext(s.h.pending, waiters, i, left);
        WakeOne(waiters[i]);
        OneMoreWoken(waiters, i, s.h.woken, t.h.woken, h.woken);
        left := left - multiset{waiters[i]};
        CalledTrans(s, n, t, k, St(), script, {}, StackOf(t), {}, StackOf(t).(pending := left));
      }
      SplitEnd(s.h.pending, waiters, left);
      assert waiters[..|waiters|] == waiters;
    }

    /** One round of the walk. */
    method WakeOne(x: Id)
      requires Valid() && x in h.pending
      modifies this
      ensures St() in Outcomes(old(St()), old(script), script, {},
          StackOf(old(St())).(pending := old(St()).h.pending - multiset{x}))
      ensures old(h.woken) + [x] <= h.woken
      decreases |script|, Unfinished(St().modules), 2
    {
      hide Consistent, Outcomes, Good, Grown, Shape, Due0, StackOf, Unfinished, Wake, Rest;
      ghost var s, n := St(), script;
      WakeStep(s, n, x);
      CountDown(x);
      if modules[x].unresolved == 0 {
        OnModuleComplete(x);
      }
      WakeRests(s, n, x, St(), script);
      CalledLog(Wake(s, x), n, St(), script, {}, StackOf(Wake(s, x)));
      WokenLast(s, x);
      RestTo(s.h.busy);
    }

    /** Asks plugin m for the resources that waited for it. */
    method LoadResources(m: Id)
      requires Valid() && IsComplete(modules, m)
      modifies this
      ensures St() in Outcomes(old(St()), old(script), script, {},
          StackOf(old(St())).(providing := old(h.providing) - {m}))
      ensures PluginWaiters(inversePlugins, m) == []
      ensures AllRequested(PluginWaiters(old(inversePlugins), m), St())
      decreases |script|, Nothing, 4
    {
      hide Consistent, Outcomes, Good, Grown, Shape, Split, Fetch, Providable, AllRequested, Emptied, StackOf;
      ghost var s, n := St(), script;
      FetchStep(s, n, m);
      ListedAreProvidable(s, m);
      var resources := FetchResources(m);
      ghost var offers, left := s.h.offers + multiset(resources), s.h.offers + multiset(resources);
      SplitStart(offers, resources);
      NothingRequested(s, m, St());
      for i := 0 to |resources|
        invariant St() in Outcomes(s, n, script, {}, Providing(s, m, left))
        invariant Split(offers, resources, i, left)
        invariant Emptied(s, m, St()) && AllRequested(resources[..i], St())
      {
        ghost var t, k := St(), script;
        CalledFacts(s, n, t, k, {}, Providing(s, m, left));
        SplitNext(offers, resources, i, left);
        StillProvidable(s, n, t, k, {}, Providing(s, m, left), resources[i]);
        LoadKept(resources[i]);
        left := left - multiset{resources[i]};
        MoreRequested(s, m, t, k, St(), script, resources, i, left);
        CalledTrans(s, n, t, k, St(), script, {}, StackOf(t), {}, Providing(s, m, left));
      }
      SplitEnd(offers, resources, left);
      assert offers - multiset(resources) == s.h.offers;
      AllWereRequested(s, m, St(), resources);
    }

    /** `Module.onDependencyError`: marks m and calls its errorback, if any. */
    method OnDependencyError(m: Id) returns (handled: bool)
      requires Valid() && m in modules && AtFault(h.faults, DeclaredGraph(h.notes), m)
      modifies this
      ensures St() in Outcomes(old(St()), old(script), script, {}, StackOf(old(St())))
      ensures m in modules && modules[m].complete && modules[m].failed
      ensures handled == old(modules[m].errorback) && (!handled ==> script == old(script))
      ensures handled ==> old(h.called) + [m] <= h.called && (|old(script)| > 0 ==> |script| < |old(script)|)
      ensures Silent(Consumed(old(script), script)) ==>
        |script| == LeftAfter(|old(script)|, if handled then 1 else 0)
      ensures Silent(Consumed(old(script), script)) ==> St() == Fail(old(St()), m) && globalErrors == old(globalErrors)
      decreases |script|, Nothing, 1
    {
      hide Consistent, Outcomes, Good, Grown, Shape, StackOf;
      ghost var s, n := St(), script;
      FailStep(s, n, m);
      handled := modules[m].errorback;
      MarkFailed(m);
      ghost var t := St();
      if handled {
        var _ := RunForeign();
      }
      CalledModule(t, n, St(), script, {}, StackOf(s), m);
      CalledLog(t, n, St(), script, {}, StackOf(s));
      CalledTrans(s, n, t, n, St(), script, {}, StackOf(s), {}, StackOf(s));
    }

    /** The loader gave up on id: id and everything that waits for it, directly
        or not, fails; if nobody had an errorback the error is reported globally.
        `visited` lists who was reached. Foreign code calls in only from an errorback. */
    method OnLoadError(id: Id) returns (ghost visited: seq<Id>)
      requires Valid()
      modifies this
      ensures St() in Outcomes(old(St()), [LoadErrorAction(id)] + old(script), script, {}, StackOf(old(St())))
      ensures |script| <= |old(script)|
      ensures NoRepeats(visited) && id in visited
      ensures forall x :: x in visited ==> x in modules && modules[x].complete && modules[x].failed
      ensures Unhandled(WithStub(old(modules), id), old(inverse), id) ==> script == old(script)
      ensures Silent(Consumed(old(script), script)) ==>
        && (forall x :: x in visited <==> x == id || Reaches(WaitGraph(old(inverse)), x, id))
        && inverse == old(inverse) && known == old(known) && modules == FailEach(WithStub(old(modules), id), visited)
        && globalErrors == old(globalErrors) + (if Notified(WithStub(old(modules), id), visited) then 0 else 1)
        && visited == Wave(old(inverse), id, visited)
        && h.called == old(h.called) + Handlers(WithStub(old(modules), id), visited)
        && |script| == LeftAfter(|old(script)|, |Handlers(WithStub(old(modules), id), visited)|)
      decreases |script|, Nothing, 3
    {
      hide Consistent, Outcomes, Good, Grown, Shape, Handlers, Wave, Fresh, Silent, Tail, Notified, LeftAfter,
           StackOf, Consumed, Reaches, FailAll;
      ghost var s, n := St(), script;
      StubStep(s, id);
      if id !in modules {
        AddModule(id, [], Factory, false);
      }
      MarkBlamed(id);
      ghost var t, errors := St(), globalErrors;
      var notified;
      visited, notified := SpreadError(id);
      if !notified {
        globalErrors := globalErrors + 1;
      }
      FailAllFacts(t, visited);
      StubRests(s, n, id, St(), script);
      CalledFacts(t, n, St(), script, {}, StackOf(t));
      RestTo(s.h.busy);
    }

    /** The breadth-first walk of `_onLoadError`. */
    method SpreadError(id: Id) returns (ghost visited: seq<Id>, notified: bool)
      requires Valid() && id in modules && id in h.faults
      modifies this
      ensures St() in Outcomes(old(St()), old(script), script, {}, StackOf(old(St())))
      ensures NoRepeats(visited) && id in visited
      ensures forall x :: x in visited ==> x in modules && modules[x].complete && modules[x].failed
      ensures Unhandled(old(modules), old(inverse), id) ==> script == old(script)
      ensures Silent(Consumed(old(script), script)) ==>
        && (forall x :: x in visited <==> x == id || Reaches(WaitGraph(old(inverse)), x, id))
        && St() == FailAll(old(St()), visited) && globalErrors == old(globalErrors)
        && notified == Notified(old(modules), visited) && visited == Wave(old(inverse), id, visited)
        && |script| == LeftAfter(|old(script)|, |Handlers(old(modules), visited)|)
      decreases |script|, Nothing, 2
    {
      hide Consistent, Outcomes, Grown, Shape, StackOf, Spreading, Unhandled, Silent, Tail, Consumed, Doomed, AtFault,
           Handlers, Wave, Fresh;
      ghost var s, n, errors := St(), script, globalErrors;
      CalledRefl(s, n, {});
      SpreadStarts(s, id);
      SilentNone(n);
      NoHandlers(s.modules);
      visited, notified := [], false;
      var queue, seen := [id], {id};
      while |queue| > 0
        invariant St() in Outcomes(s, n, script, {}, StackOf(s)) && Tail(script, n)
        invariant Spreading(s, id, St(), visited, queue, seen, notified, Silent(Consumed(n, script)))
        invariant Silent(Consumed(n, script)) ==> globalErrors == errors
        invariant Unhandled(s.modules, s.inverse, id) ==> script == n
        invariant Silent(Consumed(n, script)) ==> |script| == LeftAfter(|n|, |Handlers(s.modules, visited)|)
        decreases |script|, modules.Keys - seen, |queue|
      {
        ghost var t, k := St(), script;
        CalledFacts(s, n, t, k, {}, StackOf(s));
        SpreadFirst(s, id, t, visited, queue, seen, notified, Silent(Consumed(n, k)));
        SpreadUnhandled(s, id, queue[0]);
        var element := queue[0];
        var handled := OnDependencyError(element);
        ghost var u, l := St(), script;
        CalledTrans(s, n, t, k, u, l, {}, StackOf(s), {}, StackOf(s));
        CalledFacts(t, k, u, l, {}, StackOf(t));
        SilentTrans(n, k, l);
        var queue', seen' := Enqueue(Waiters(inverse, element), queue[1..], seen);
        SpreadRound(s, id, t, k, u, l, visited, queue, seen, notified, Silent(Consumed(n, k)), handled,
                    Silent(Consumed(k, l)), queue', seen');
        SpreadProgress(s, id, t, k, u, l, visited, queue, seen, queue', seen', handled || notified,
                       Silent(Consumed(n, l)));
        HandlersNext(s.modules, visited, element);
        notified := handled || notified;
        queue, seen := queue', seen';
        visited := visited + [element];
      }
      SpreadDone(s, id, St(), visited, queue, seen, notified, Silent(Consumed(n, script)));
    }

    /** The waiters not seen before join the queue. */
    method Enqueue(waiters: seq<Id>, queue: seq<Id>, seen: set<Id>) returns (queue': seq<Id>, seen': set<Id>)
      ensures queue <= queue' && NoRepeats(queue'[|queue|..])
      ensures queue' == queue + Fresh(waiters, seen)
      ensures forall x :: x in queue'[|queue|..] <==> x in waiters && x !in seen
      ensures seen <= seen' && forall x :: x in seen' <==> x in seen || x in waiters
    {
      queue', seen' := queue, seen;
      for i := 0 to |waiters|
        invariant queue <= queue' && NoRepeats(queue'[|queue|..])
        invariant queue' == queue + Fresh(waiters[..i], seen)
        invariant forall x :: x in queue'[|queue|..] <==> x in waiters[..i] && x !in seen
        invariant seen <= seen' && forall x :: x in seen' <==> x in seen || x in waiters[..i]
      {
        assert waiters[..i + 1] == waiters[..i] + [waiters[i]];
        assert waiters[..i + 1][..i] == waiters[..i];
        if waiters[i] !in seen' {
          assert (queue' + [waiters[i]])[|queue|..] == queue'[|queue|..] + [waiters[i]];
          queue' := queue' + [waiters[i]];
          seen' := seen' + {waiters[i]};
        }
      }
      assert waiters[..|waiters|] == waiters;
    }
  }
}
