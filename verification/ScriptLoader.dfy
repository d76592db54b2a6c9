/** Loading a script once for all who ask for it while it is being loaded, with
    foreign code that may ask again, and loads that may complete, from inside a
    callback or from inside the start of a load. */
module ScriptLoaders {
  type Script = int
  type RequestId = int

  /** What foreign code does next; a load can only complete while it is under way. */
  datatype Action = Ask(script: Script) | Complete(script: Script, ok: bool) | Return

  /** The requests of a completed load that have not been answered yet, and whether
      they get their callback or their errorback. */
  datatype Batch = Batch(script: Script, ok: bool, rest: seq<RequestId>)

  /** Requests are numbered; asked and told list them by script, the told ones in the
      order of their answers; `fates` says which answer each got, `verdicts` which it got
      or is about to get. `overtaken` are the
      scripts of which a later request was told before an earlier one that was due.
      `started` and `ended` list the loads that were begun and that completed. */
  datatype State = State(
    waiting: map<Script, seq<RequestId>>, loading: set<Script>, count: int,
    asked: map<Script, seq<RequestId>>, told: map<Script, seq<RequestId>>,
    fates: map<(Script, RequestId), bool>, verdicts: map<(Script, RequestId), bool>,
    stack: seq<Batch>, overtaken: set<Script>, started: seq<Script>, ended: seq<Script>)

  function Of(m: map<Script, seq<RequestId>>, s: Script): seq<RequestId>
  {
    if s in m then m[s] else []
  }

  function RestOf(b: Batch, s: Script): seq<RequestId>
  {
    if b.script == s then b.rest else []
  }

  /** Request r for script s has been answered. */
  predicate HasFate(fates: map<(Script, RequestId), bool>, s: Script, r: RequestId)
  {
    (s, r) in fates
  }

  /** The callbacks due for a script, outermost batch first. */
  function Due(stack: seq<Batch>, s: Script): seq<RequestId>
  {
    if stack == [] then [] else Due(stack[..|stack| - 1], s) + RestOf(stack[|stack| - 1], s)
  }

  lemma DueAppend(stack: seq<Batch>, b: Batch, s: Script)
    ensures Due(stack + [b], s) == Due(stack, s) + RestOf(b, s)
  {
    assert (stack + [b])[..|stack|] == stack;
  }

  /** All of rs, who waited for s, are to get the same answer. */
  function Settled(verdicts: map<(Script, RequestId), bool>, s: Script, rs: seq<RequestId>, ok: bool):
      map<(Script, RequestId), bool>
  {
    verdicts + map r | r in rs :: (s, r) := ok
  }

  // ---------------------------------------------- what the actions alone settle

  /** Who waits for which script, the next number, and the answers that are settled. */
  datatype Ledger = Ledger(
    waiting: map<Script, seq<RequestId>>, count: int, verdicts: map<(Script, RequestId), bool>)

  /** A request waits for the next completion of its script; a completion gives its
      outcome to all who wait for it. A script nobody waits for is not under way. */
  function Act(l: Ledger, a: Action): Ledger
  {
    match a
    case Ask(s) => l.(waiting := l.waiting[s := Of(l.waiting, s) + [l.count]], count := l.count + 1)
    case Complete(s, ok) =>
      if s in l.waiting then Ledger(l.waiting - {s}, l.count, Settled(l.verdicts, s, l.waiting[s], ok)) else l
    case Return => l
  }

  /** The actions one after the other, as if no callback ran any of them. */
  function Replay(l: Ledger, c: seq<Action>): Ledger
  {
    if c == [] then l else Act(Replay(l, c[..|c| - 1]), c[|c| - 1])
  }

  lemma {:induction false} ReplayAppend(l: Ledger, a: seq<Action>, b: seq<Action>)
    ensures Replay(l, a + b) == Replay(Replay(l, a), b)
    decreases |b|
  {
    if b == [] {
      assert a + b == a;
    } else {
      assert (a + b)[..|a + b| - 1] == a + b[..|b| - 1];
      ReplayAppend(l, a, b[..|b| - 1]);
    }
  }

  /** Requests are numbered in order, and who waits has no answer yet. */
  ghost predicate Kept(l: Ledger)
  {
    && (forall s, r :: HasFate(l.verdicts, s, r) ==> r < l.count)
    && (forall s, r :: r in Of(l.waiting, s) ==> r < l.count && !HasFate(l.verdicts, s, r))
  }

  lemma ActKeeps(l: Ledger, a: Action)
    requires Kept(l)
    ensures Kept(Act(l, a))
    ensures forall s, r :: HasFate(l.verdicts, s, r) ==>
      HasFate(Act(l, a).verdicts, s, r) && Act(l, a).verdicts[(s, r)] == l.verdicts[(s, r)]
    ensures forall s, r :: r in Of(l.waiting, s) && (forall ok :: a != Complete(s, ok)) ==>
      r in Of(Act(l, a).waiting, s)
  {
    var v := Act(l, a);
    forall s, r | HasFate(v.verdicts, s, r) ensures r < v.count {
      if HasFate(l.verdicts, s, r) { assert r < l.count; } else { assert r in Of(l.waiting, s); }
    }
    forall s, r | r in Of(v.waiting, s) ensures r < v.count && !HasFate(v.verdicts, s, r) {
      if r in Of(l.waiting, s) { assert !HasFate(l.verdicts, s, r); }
      assert HasFate(l.verdicts, s, r) ==> r < l.count;
    }
    forall s, r | HasFate(l.verdicts, s, r)
      ensures HasFate(v.verdicts, s, r) && v.verdicts[(s, r)] == l.verdicts[(s, r)]
    {
      assert r !in Of(l.waiting, s);
    }
  }

  lemma {:induction false} ReplayKeeps(l: Ledger, c: seq<Action>)
    requires Kept(l)
    ensures Kept(Replay(l, c))
    ensures forall s, r :: HasFate(l.verdicts, s, r) ==>
      HasFate(Replay(l, c).verdicts, s, r) && Replay(l, c).verdicts[(s, r)] == l.verdicts[(s, r)]
    decreases |c|
  {
    hide Act, Kept;
    if c != [] {
      ReplayKeeps(l, c[..|c| - 1]);
      ActKeeps(Replay(l, c[..|c| - 1]), c[|c| - 1]);
    }
  }

  lemma {:induction false} WaitsOn(l: Ledger, c: seq<Action>, s: Script, r: RequestId)
    requires Kept(l) && r in Of(l.waiting, s) && forall ok :: Complete(s, ok) !in c
    ensures r in Of(Replay(l, c).waiting, s)
    decreases |c|
  {
    hide Act, Kept;
    if c != [] {
      var front, last := c[..|c| - 1], c[|c| - 1];
      assert c == front + [last];
      WaitsOn(l, front, s, r);
      ReplayKeeps(l, front);
      ActKeeps(Replay(l, front), last);
      assert last in c;
    }
  }

  /** The first completion of its script after a request decides its answer, for good:
      until then it waits. */
  lemma FirstCompletionAnswers(l: Ledger, a: seq<Action>, s: Script, ok: bool, b: seq<Action>, r: RequestId)
    requires Kept(l) && r in Of(l.waiting, s) && forall ok' :: Complete(s, ok') !in a
    ensures r in Of(Replay(l, a).waiting, s)
    ensures var v := Replay(l, a + [Complete(s, ok)] + b).verdicts; HasFate(v, s, r) && v[(s, r)] == ok
  {
    hide Kept;
    WaitsOn(l, a, s, r);
    ReplayKeeps(l, a + [Complete(s, ok)]);
    assert (a + [Complete(s, ok)])[..|a|] == a;
    assert HasFate(Replay(l, a + [Complete(s, ok)]).verdicts, s, r);
    ReplayAppend(l, a + [Complete(s, ok)], b);
    ReplayKeeps(Replay(l, a + [Complete(s, ok)]), b);
  }

  /** In every state of the loader the account is kept in this sense. */
  lemma LedgerKept(st: State)
    requires Inv(st)
    ensures Kept(LedgerOf(st))
  {
    hide Due, OneLoad, Accounted;
    forall s, r | r in Of(st.waiting, s) ensures r < st.count && !HasFate(st.verdicts, s, r) {
      WaitsUntold(st, s, r);
      KnownBelow(st, s, r);
    }
    forall s, r | HasFate(st.verdicts, s, r) ensures r < st.count {
      assert HasFate(st.fates, s, r) ==> r in Of(st.told, s);
      KnownBelow(st, s, r);
    }
  }

  lemma KnownBelow(st: State, s: Script, r: RequestId)
    requires InOrder(st, s) && (r in Of(st.waiting, s) || r in Of(st.told, s) || r in Due(st.stack, s))
    ensures r < st.count
  {
    hide Due;
    var asked := multiset(Of(st.asked, s));
    assert asked == multiset(Of(st.told, s)) + multiset(Due(st.stack, s)) + multiset(Of(st.waiting, s));
    assert r in asked;
  }

  function LedgerOf(st: State): Ledger
  {
    Ledger(st.waiting, st.count, st.verdicts)
  }

  ghost predicate Tail(k: seq<Action>, n: seq<Action>)
  {
    |k| <= |n| && n[|n| - |k|..] == k
  }

  /** The actions that have been taken from n when k are left. */
  function Consumed(n: seq<Action>, k: seq<Action>): seq<Action>
  {
    if |k| <= |n| then n[..|n| - |k|] else []
  }

  /** From st with the actions n to st' with k: those in `first`, and then those that
      were taken, settle exactly what is settled. */
  ghost predicate Plays(st: State, n: seq<Action>, st': State, k: seq<Action>, first: seq<Action>)
  {
    Tail(k, n) && LedgerOf(st') == Replay(LedgerOf(st), first + Consumed(n, k))
  }

  lemma PlaysOne(st: State, n: seq<Action>, st': State, a: Action)
    requires LedgerOf(st') == Act(LedgerOf(st), a)
    ensures Plays(st, n, st', n, [a])
  {
    assert [a] + Consumed(n, n) == [a] && [a][..0] == [];
    assert Replay(LedgerOf(st), []) == LedgerOf(st);
  }

  lemma PlaysNone(st: State, n: seq<Action>, st': State)
    requires LedgerOf(st') == LedgerOf(st)
    ensures Plays(st, n, st', n, [])
  {
    assert [] + Consumed(n, n) == [];
  }

  lemma PlaysTrans(st: State, n: seq<Action>, st': State, k: seq<Action>, st'': State, l: seq<Action>,
                   first: seq<Action>)
    requires Plays(st, n, st', k, first) && Plays(st', k, st'', l, [])
    ensures Plays(st, n, st'', l, first)
  {
    assert n[|n| - |l|..] == l by { assert n[|n| - |l|..] == k[|k| - |l|..]; }
    assert first + Consumed(n, l) == (first + Consumed(n, k)) + ([] + Consumed(k, l));
    ReplayAppend(LedgerOf(st), first + Consumed(n, k), [] + Consumed(k, l));
  }

  /** An action taken from the list is followed by what it did. */
  lemma PlaysNext(st: State, n: seq<Action>, st': State, k: seq<Action>)
    requires n != [] && Plays(st, n[1..], st', k, [n[0]])
    ensures Plays(st, n, st', k, [])
  {
    assert n == [n[0]] + n[1..];
    assert [] + Consumed(n, k) == [n[0]] + Consumed(n[1..], k);
    assert n[|n| - |k|..] == k by { assert n[|n| - |k|..] == n[1..][|n[1..]| - |k|..]; }
  }

  // ----------------------------------------------------------------- the steps

  function Asked(st: State, s: Script): State
  {
    st.(count := st.count + 1, asked := st.asked[s := Of(st.asked, s) + [st.count]],
        waiting := st.waiting[s := Of(st.waiting, s) + [st.count]], loading := st.loading + {s},
        started := st.started + if s in st.loading then [] else [s])
  }

  function Opened(st: State, s: Script, ok: bool): State
  {
    st.(waiting := st.waiting - {s}, loading := st.loading - {s}, ended := st.ended + [s],
        verdicts := Settled(st.verdicts, s, Of(st.waiting, s), ok),
        stack := st.stack + [Batch(s, ok, Of(st.waiting, s))])
  }

  function Top(st: State): Batch
    requires st.stack != []
  {
    st.stack[|st.stack| - 1]
  }

  function Below(st: State): seq<Batch>
    requires st.stack != []
  {
    st.stack[..|st.stack| - 1]
  }

  function Told(st: State): State
    requires st.stack != [] && Top(st).rest != []
  {
    var s, r := Top(st).script, Top(st).rest[0];
    st.(told := st.told[s := Of(st.told, s) + [r]], fates := st.fates[(s, r) := Top(st).ok],
        stack := Below(st) + [Top(st).(rest := Top(st).rest[1..])],
        overtaken := if Due(Below(st), s) == [] then st.overtaken else st.overtaken + {s})
  }

  function Closed(st: State): State
    requires st.stack != []
  {
    st.(stack := Below(st))
  }

  // ------------------------------------------------------------- the invariant

  ghost predicate Increasing(xs: seq<RequestId>, count: int)
  {
    && (forall k :: 0 <= k < |xs| ==> xs[k] < count)
    && (forall j, k :: 0 <= j < k < |xs| ==> xs[j] < xs[k])
  }

  ghost predicate OutOfTurn(asked: seq<RequestId>, told: seq<RequestId>)
  {
    exists k :: 0 <= k < |told| && k < |asked| && told[k] != asked[k]
  }

  /** The requests for one script: each is told, due or waiting, once; in this order
      unless one was overtaken. */
  ghost predicate Accounted(asked: seq<RequestId>, told: seq<RequestId>, due: seq<RequestId>,
      waiting: seq<RequestId>, late: bool, count: int)
  {
    && Increasing(asked, count)
    && multiset(asked) == multiset(told) + multiset(due) + multiset(waiting)
    && (if late then OutOfTurn(asked, told) else asked == told + due + waiting)
  }

  ghost predicate InOrder(st: State, s: Script)
  {
    Accounted(Of(st.asked, s), Of(st.told, s), Due(st.stack, s), Of(st.waiting, s), s in st.overtaken, st.count)
  }

  /** Of each script at most one load is under way: those begun have completed but
      for this one. */
  ghost predicate OneLoad(st: State)
  {
    multiset(st.started) == multiset(st.ended) + multiset(st.loading)
  }

  /** What a request has been told is what was settled for it; what is settled has been
      told or is due, from a batch with that answer. */
  ghost predicate Decided(st: State)
  {
    && (forall s, r :: HasFate(st.fates, s, r) ==>
          HasFate(st.verdicts, s, r) && st.verdicts[(s, r)] == st.fates[(s, r)])
    && (forall s, r :: HasFate(st.verdicts, s, r) ==> HasFate(st.fates, s, r) || r in Due(st.stack, s))
    && (forall i :: 0 <= i < |st.stack| ==> Promised(st.verdicts, st.stack[i]))
  }

  ghost predicate Promised(verdicts: map<(Script, RequestId), bool>, b: Batch)
  {
    forall r :: r in b.rest ==> HasFate(verdicts, b.script, r) && verdicts[(b.script, r)] == b.ok
  }

  ghost predicate Inv(st: State)
  {
    && st.waiting.Keys == st.loading && Decided(st)
    && OneLoad(st)
    && (forall s :: InOrder(st, s))
    && (forall s, r :: HasFate(st.fates, s, r) <==> r in Of(st.told, s))
  }

  /** Nothing asked or told is forgotten or reordered. */
  ghost predicate Grows(st: State, st': State)
  {
    && st.overtaken <= st'.overtaken && st.started <= st'.started && st.ended <= st'.ended
    && (forall s, r :: HasFate(st.fates, s, r) ==> HasFate(st'.fates, s, r) && st'.fates[(s, r)] == st.fates[(s, r)])
    && forall s :: Of(st.asked, s) <= Of(st'.asked, s) && Of(st.told, s) <= Of(st'.told, s)
  }

  lemma AskAccounted(asked: seq<RequestId>, told: seq<RequestId>, due: seq<RequestId>, waiting: seq<RequestId>,
      late: bool, n: int)
    requires Accounted(asked, told, due, waiting, late, n)
    ensures Accounted(asked + [n], told, due, waiting + [n], late, n + 1)
  {
    if late {
      var k :| 0 <= k < |told| && k < |asked| && told[k] != asked[k];
      assert told[k] != (asked + [n])[k];
    } else {
      assert asked + [n] == told + due + (waiting + [n]);
    }
  }

  lemma MoreNumbers(asked: seq<RequestId>, told: seq<RequestId>, due: seq<RequestId>, waiting: seq<RequestId>,
      late: bool, n: int)
    requires Accounted(asked, told, due, waiting, late, n)
    ensures Accounted(asked, told, due, waiting, late, n + 1)
  {
  }

  lemma OpenAccounted(asked: seq<RequestId>, told: seq<RequestId>, due: seq<RequestId>, waiting: seq<RequestId>,
      late: bool, n: int)
    requires Accounted(asked, told, due, waiting, late, n)
    ensures Accounted(asked, told, due + waiting, [], late, n)
  {
    assert told + (due + waiting) + [] == told + due + waiting;
  }

  /** The next due callback of a batch is called; `below` are those of outer batches. */
  lemma TellAccounted(asked: seq<RequestId>, told: seq<RequestId>, below: seq<RequestId>, rest: seq<RequestId>,
                      waiting: seq<RequestId>, late: bool, n: int)
    requires Accounted(asked, told, below + rest, waiting, late, n) && rest != []
    ensures Accounted(asked, told + [rest[0]], below + rest[1..], waiting, late || below != [], n)
  {
    var r, tail := rest[0], rest[1..];
    assert rest == [r] + tail;
    assert multiset(told + [r]) + multiset(below + tail) == multiset(told) + multiset(below + rest);
    var k := |told|;
    if late {
      var i :| 0 <= i < |told| && i < |asked| && told[i] != asked[i];
      assert (told + [r])[i] != asked[i];
    } else if below == [] {
      assert told + (below + rest) + waiting == told + [r] + (below + tail) + waiting;
    } else {
      assert asked[k] == below[0] && asked[k + |below|] == r;
      assert (told + [r])[k] != asked[k];
    }
  }

  lemma AskedOneLoad(st: State, s: Script)
    requires OneLoad(st)
    ensures OneLoad(Asked(st, s))
  {
    if s in st.loading {
      assert st.started + [] == st.started && st.loading + {s} == st.loading;
    } else {
      assert multiset(st.loading + {s}) == multiset(st.loading) + multiset{s};
    }
  }

  lemma OpenedOneLoad(st: State, s: Script, ok: bool)
    requires OneLoad(st) && s in st.loading
    ensures OneLoad(Opened(st, s, ok))
  {
    assert multiset(st.loading) == multiset(st.loading - {s}) + multiset{s};
  }

  lemma AskedInOrder(st: State, s: Script, z: Script)
    requires InOrder(st, z)
    ensures InOrder(Asked(st, s), z)
  {
    hide Accounted, Due;
    if z == s {
      AskAccounted(Of(st.asked, z), Of(st.told, z), Due(st.stack, z), Of(st.waiting, z), z in st.overtaken, st.count);
    } else {
      MoreNumbers(Of(st.asked, z), Of(st.told, z), Due(st.stack, z), Of(st.waiting, z), z in st.overtaken, st.count);
    }
  }

  lemma {:induction false} RestInDue(stack: seq<Batch>, i: int, r: RequestId)
    requires 0 <= i < |stack| && r in stack[i].rest
    ensures r in Due(stack, stack[i].script)
    decreases |stack|
  {
    if i < |stack| - 1 { RestInDue(stack[..|stack| - 1], i, r); }
  }

  lemma WaitingOnly(asked: seq<RequestId>, told: seq<RequestId>, due: seq<RequestId>, waiting: seq<RequestId>,
                    late: bool, n: int, r: RequestId)
    requires Accounted(asked, told, due, waiting, late, n) && r in waiting
    ensures r !in told && r !in due
  {
    AtMostOne(asked, r, n);
    assert multiset(waiting)[r] >= 1;
    assert multiset(told)[r] + multiset(due)[r] == 0;
  }

  /** Who waits has not been told and is not due. */
  lemma WaitsUntold(st: State, s: Script, r: RequestId)
    requires Inv(st) && r in Of(st.waiting, s)
    ensures !HasFate(st.fates, s, r) && r !in Due(st.stack, s)
  {
    hide Accounted, Due;
    assert InOrder(st, s);
    WaitingOnly(Of(st.asked, s), Of(st.told, s), Due(st.stack, s), Of(st.waiting, s), s in st.overtaken, st.count, r);
  }

  lemma OpenedPromised(st: State, s: Script, ok: bool, i: int)
    requires Inv(st) && s in st.loading && 0 <= i <= |st.stack|
    ensures Promised(Opened(st, s, ok).verdicts, Opened(st, s, ok).stack[i])
  {
    hide Due, InOrder, OneLoad;
    if i < |st.stack| {
      assert Promised(st.verdicts, st.stack[i]);
      forall r | r in st.stack[i].rest && st.stack[i].script == s ensures r !in Of(st.waiting, s) {
        RestInDue(st.stack, i, r);
        if r in Of(st.waiting, s) { WaitsUntold(st, s, r); }
      }
    }
  }

  lemma OpenedSettled(st: State, s: Script, ok: bool, z: Script, r: RequestId)
    requires Decided(st) && HasFate(Opened(st, s, ok).verdicts, z, r)
    ensures HasFate(st.fates, z, r) || r in Due(Opened(st, s, ok).stack, z)
  {
    hide Due, Promised;
    DueAppend(st.stack, Batch(s, ok, Of(st.waiting, s)), z);
    if HasFate(st.verdicts, z, r) { assert HasFate(st.fates, z, r) || r in Due(st.stack, z); }
  }

  lemma OpenedDecided(st: State, s: Script, ok: bool)
    requires Inv(st) && s in st.loading
    ensures Decided(Opened(st, s, ok))
  {
    hide Due, InOrder, OneLoad, Promised;
    var v := Opened(st, s, ok);
    forall r | r in Of(st.waiting, s) ensures !HasFate(st.fates, s, r) { WaitsUntold(st, s, r); }
    forall z, r | HasFate(v.verdicts, z, r) ensures HasFate(v.fates, z, r) || r in Due(v.stack, z) {
      OpenedSettled(st, s, ok, z, r);
    }
    forall i | 0 <= i < |v.stack| ensures Promised(v.verdicts, v.stack[i]) { OpenedPromised(st, s, ok, i); }
  }

  lemma ToldDecided(st: State)
    requires Inv(st) && st.stack != [] && Top(st).rest != []
    ensures Decided(Told(st))
  {
    hide Due, InOrder, OneLoad;
    var top, below, v := Top(st), Below(st), Told(st);
    assert st.stack == below + [top];
    assert Promised(st.verdicts, st.stack[|below|]);
    forall z, r | HasFate(v.verdicts, z, r) ensures HasFate(v.fates, z, r) || r in Due(v.stack, z) {
      assert HasFate(st.verdicts, z, r);
      DueAppend(below, top, z);
      DueAppend(below, top.(rest := top.rest[1..]), z);
      assert top.rest == [top.rest[0]] + top.rest[1..];
    }
    forall i | 0 <= i < |v.stack| ensures Promised(v.verdicts, v.stack[i]) {
      assert Promised(st.verdicts, st.stack[i]);
    }
  }

  lemma ClosedDecided(st: State)
    requires Decided(st) && st.stack != [] && Top(st).rest == []
    ensures Decided(Closed(st))
  {
    hide Due;
    var top, below, v := Top(st), Below(st), Closed(st);
    assert st.stack == below + [top];
    forall z, r | HasFate(v.verdicts, z, r) ensures HasFate(v.fates, z, r) || r in Due(v.stack, z) {
      DueAppend(below, top, z);
    }
    forall i | 0 <= i < |v.stack| ensures Promised(v.verdicts, v.stack[i]) {
      assert Promised(st.verdicts, st.stack[i]);
    }
  }

  lemma AskedKeeps(st: State, s: Script)
    requires Inv(st)
    ensures Inv(Asked(st, s))
  {
    hide InOrder, OneLoad, Due, Promised;
    AskedOneLoad(st, s);
    forall z ensures InOrder(Asked(st, s), z) {
      assert InOrder(st, z);
      AskedInOrder(st, s, z);
    }
  }

  lemma OpenedKeeps(st: State, s: Script, ok: bool)
    requires Inv(st) && s in st.loading
    ensures Inv(Opened(st, s, ok))
  {
    hide Accounted, Due, OneLoad, Decided;
    OpenedOneLoad(st, s, ok);
    OpenedDecided(st, s, ok);
    forall z ensures InOrder(Opened(st, s, ok), z) {
      assert InOrder(st, z);
      DueAppend(st.stack, Batch(s, ok, Of(st.waiting, s)), z);
      if z == s {
        OpenAccounted(Of(st.asked, z), Of(st.told, z), Due(st.stack, z), Of(st.waiting, z), z in st.overtaken,
                      st.count);
      } else {
        assert Due(st.stack, z) + [] == Due(st.stack, z);
      }
    }
  }

  lemma ToldKeeps(st: State)
    requires Inv(st) && st.stack != [] && Top(st).rest != []
    ensures Inv(Told(st))
  {
    hide Accounted, Due, Decided;
    ToldDecided(st);
    ToldFates(st);
    var top, below := Top(st), Below(st);
    assert st.stack == below + [top];
    forall z ensures InOrder(Told(st), z) {
      assert InOrder(st, z);
      DueAppend(below, top, z);
      DueAppend(below, top.(rest := top.rest[1..]), z);
      if z == top.script {
        TellAccounted(Of(st.asked, z), Of(st.told, z), Due(below, z), top.rest, Of(st.waiting, z), z in st.overtaken,
          st.count);
      }
    }
  }

  lemma ToldFates(st: State)
    requires Inv(st) && st.stack != [] && Top(st).rest != []
    ensures forall s, r :: HasFate(Told(st).fates, s, r) <==> r in Of(Told(st).told, s)
  {
    hide InOrder, Due;
    forall s, r ensures HasFate(Told(st).fates, s, r) <==> r in Of(Told(st).told, s) {
      assert HasFate(st.fates, s, r) <==> r in Of(st.told, s);
    }
  }

  lemma ClosedKeeps(st: State)
    requires Inv(st) && st.stack != [] && Top(st).rest == []
    ensures Inv(Closed(st))
  {
    hide Accounted, Due, Decided;
    ClosedDecided(st);
    var top, below := Top(st), Below(st);
    assert st.stack == below + [top];
    forall z ensures InOrder(Closed(st), z) {
      assert InOrder(st, z);
      DueAppend(below, top, z);
      assert Due(below, z) + [] == Due(below, z);
    }
  }

  lemma StepGrows(st: State, s: Script, ok: bool)
    ensures Grows(st, Asked(st, s)) && Grows(st, Opened(st, s, ok))
    ensures st.stack != [] ==> Grows(st, Closed(st))
  {
  }

  /** A due request has not been answered before. */
  lemma ToldGrows(st: State)
    requires Inv(st) && st.stack != [] && Top(st).rest != []
    ensures Grows(st, Told(st))
  {
    hide InOrder, Due;
    TopNotTold(st);
  }

  lemma TopNotTold(st: State)
    requires Inv(st) && st.stack != [] && Top(st).rest != []
    ensures !HasFate(st.fates, Top(st).script, Top(st).rest[0])
  {
    hide Accounted, Due;
    var s, below := Top(st).script, Below(st);
    assert InOrder(st, s);
    assert st.stack == below + [Top(st)];
    DueAppend(below, Top(st), s);
    NotToldYet(Of(st.asked, s), Of(st.told, s), Due(below, s), Top(st).rest, Of(st.waiting, s), s in st.overtaken,
      st.count);
  }

  lemma NotToldYet(asked: seq<RequestId>, told: seq<RequestId>, below: seq<RequestId>, rest: seq<RequestId>,
                   waiting: seq<RequestId>, late: bool, n: int)
    requires Accounted(asked, told, below + rest, waiting, late, n) && rest != []
    ensures rest[0] !in told
  {
    var r := rest[0];
    AtMostOne(asked, r, n);
    assert (below + rest)[|below|] == r;
    assert multiset(below + rest)[r] >= 1;
    assert multiset(told)[r] == 0;
  }

  lemma GrowsTrans(a: State, b: State, c: State)
    requires Grows(a, b) && Grows(b, c)
    ensures Grows(a, c)
  {
  }

  lemma GrowsRefl(st: State)
    ensures Grows(st, st)
  {
  }

  lemma ToldFate(st: State)
    requires st.stack != [] && Top(st).rest != []
    ensures HasFate(Told(st).fates, Top(st).script, Top(st).rest[0])
    ensures Told(st).fates[(Top(st).script, Top(st).rest[0])] == Top(st).ok
  {
  }

  lemma StillFate(a: State, b: State, s: Script, r: RequestId)
    requires Grows(a, b) && HasFate(a.fates, s, r)
    ensures HasFate(b.fates, s, r) && b.fates[(s, r)] == a.fates[(s, r)]
  {
  }

  lemma LoadingIsWaiting(st: State)
    requires Inv(st)
    ensures st.waiting.Keys == st.loading
  {
  }

  lemma TakenLast(st: State, n: seq<Action>, st': State, k: seq<Action>)
    requires Plays(st, n, st', k, []) && k != []
    ensures 0 < |k| <= |n| && n[|n| - |k|] == k[0]
  {
    assert n[|n| - |k|..][0] == k[0];
  }

  lemma PlaysAsk(st: State, n: seq<Action>, s: Script)
    ensures Plays(st, n, Asked(st, s), n, [Ask(s)])
  {
    PlaysOne(st, n, Asked(st, s), Ask(s));
  }

  lemma PlaysComplete(st: State, n: seq<Action>, s: Script, ok: bool)
    requires Inv(st) && s in st.loading
    ensures Plays(st, n, Opened(st, s, ok), n, [Complete(s, ok)])
  {
    PlaysOne(st, n, Opened(st, s, ok), Complete(s, ok));
  }

  /** A completion of a script that is not under way, and a return, settle nothing. */
  lemma PlaysIdle(st: State, n: seq<Action>, a: Action)
    requires Inv(st) && (a.Return? || (a.Complete? && a.script !in st.loading))
    ensures Plays(st, n, st, n, [a])
  {
    PlaysOne(st, n, st, a);
  }

  lemma LoadingWaits(st: State, s: Script)
    requires Inv(st) && s in st.loading
    ensures s in st.waiting
  {
  }

  /** The requests rs for s have been answered, all with ok. */
  predicate Answered(fates: map<(Script, RequestId), bool>, s: Script, rs: seq<RequestId>, ok: bool)
  {
    forall r :: r in rs ==> HasFate(fates, s, r) && fates[(s, r)] == ok
  }

  lemma NoneAnswered(fates: map<(Script, RequestId), bool>, s: Script, ok: bool)
    ensures Answered(fates, s, [], ok)
  {
  }

  lemma KeptAnswers(a: State, b: State, s: Script, rs: seq<RequestId>, i: int, ok: bool)
    requires 0 <= i < |rs| && Grows(a, b) && Answered(a.fates, s, rs[..i], ok) && HasFate(b.fates, s, rs[i])
        && b.fates[(s, rs[i])] == ok
    ensures Answered(b.fates, s, rs[..i + 1], ok)
  {
    assert rs[..i + 1] == rs[..i] + [rs[i]];
  }

  /** When nothing is being called back, all that is settled has been told. */
  lemma IdleVerdicts(st: State)
    requires Decided(st) && st.stack == []
    ensures st.fates == st.verdicts
  {
    forall k | k in st.verdicts ensures k in st.fates { assert HasFate(st.verdicts, k.0, k.1); }
    forall k | k in st.fates ensures k in st.verdicts && st.verdicts[k] == st.fates[k] {
      assert HasFate(st.fates, k.0, k.1);
    }
  }

  /** The first i of rs, who waited for the load of s, have been called back. */
  ghost predicate Halfway(st0: State, n: seq<Action>, st: State, k: seq<Action>, s: Script, ok: bool,
                          rs: seq<RequestId>, i: int)
  {
    && 0 <= i <= |rs| && Inv(st) && Grows(st0, st) && |k| <= |n| && (i > 0 && n != [] ==> |k| < |n|)
    && st.stack == st0.stack + [Batch(s, ok, rs[i..])] && Answered(st.fates, s, rs[..i], ok)
    && Plays(st0, n, st, k, [Complete(s, ok)])
  }

  lemma HalfwayStarts(st0: State, n: seq<Action>, s: Script, ok: bool)
    requires Inv(st0) && s in st0.loading && s in st0.waiting
    ensures Halfway(st0, n, Opened(st0, s, ok), n, s, ok, st0.waiting[s], 0)
  {
    hide Inv, Grows, Plays;
    OpenedKeeps(st0, s, ok);
    StepGrows(st0, s, ok);
    PlaysComplete(st0, n, s, ok);
    assert st0.waiting[s][0..] == st0.waiting[s];
  }

  lemma HalfwayNext(st0: State, n: seq<Action>, st: State, k: seq<Action>, s: Script, ok: bool,
                    rs: seq<RequestId>, i: int)
    requires Halfway(st0, n, st, k, s, ok, rs, i) && i < |rs|
    ensures Inv(st) && |k| <= |n| && st.stack != [] && Top(st).script == s && Top(st).ok == ok
    ensures Top(st).rest != [] && Top(st).rest[0] == rs[i]
  {
    hide Inv, Grows, Plays, Answered;
  }

  lemma HalfwayOn(st0: State, n: seq<Action>, st: State, k: seq<Action>, st': State, k': seq<Action>, s: Script,
                  ok: bool, rs: seq<RequestId>, i: int)
    requires Halfway(st0, n, st, k, s, ok, rs, i) && i < |rs| && st.stack != [] && Top(st).rest != []
    requires Inv(st') && Grows(st, st') && |k'| <= |k| && (k != [] ==> |k'| < |k|) && Plays(st, k, st', k', [])
    requires HasFate(st'.fates, s, rs[i]) && st'.fates[(s, rs[i])] == ok
    requires st'.stack == Below(st) + [Top(st).(rest := Top(st).rest[1..])]
    ensures Halfway(st0, n, st', k', s, ok, rs, i + 1)
  {
    hide Inv, Plays;
    GrowsTrans(st0, st, st');
    KeptAnswers(st, st', s, rs, i, ok);
    PlaysTrans(st0, n, st, k, st', k', [Complete(s, ok)]);
    hide Grows, Answered;
    assert Below(st) == st0.stack && rs[i..][1..] == rs[i + 1..];
  }

  lemma HalfwayEnds(st0: State, n: seq<Action>, st: State, k: seq<Action>, s: Script, ok: bool, rs: seq<RequestId>)
    requires Halfway(st0, n, st, k, s, ok, rs, |rs|)
    ensures Inv(st) && Grows(st0, st) && |k| <= |n| && (rs != [] && n != [] ==> |k| < |n|)
    ensures st.stack == st0.stack + [Batch(s, ok, [])] && Answered(st.fates, s, rs, ok)
    ensures Plays(st0, n, st, k, [Complete(s, ok)])
  {
    hide Inv, Grows, Plays, Answered;
    assert rs[..|rs|] == rs && rs[|rs|..] == [];
  }

  /** At any time, the loads of a script that were begun and have not completed are
      one if it is being loaded and none otherwise. */
  lemma OneLoadAtATime(st: State, s: Script)
    requires Inv(st)
    ensures multiset(st.started)[s] - multiset(st.ended)[s] == if s in st.waiting then 1 else 0
  {
    assert OneLoad(st);
    assert multiset(st.started)[s] == (multiset(st.ended) + multiset(st.loading))[s];
  }

  /** When nothing is being called back: every request has been told once or waits for
      a load that is under way, and requests are told in the order asked exactly when
      none was overtaken. */
  lemma Idle(st: State, s: Script)
    requires Inv(st) && st.stack == []
    ensures multiset(Of(st.asked, s)) == multiset(Of(st.told, s)) + multiset(Of(st.waiting, s))
    ensures forall j, k :: 0 <= j < k < |Of(st.told, s)| ==> Of(st.told, s)[j] != Of(st.told, s)[k]
    ensures Of(st.told, s) <= Of(st.asked, s) <==> s !in st.overtaken
    ensures s !in st.loading ==> |Of(st.told, s)| == |Of(st.asked, s)|
    ensures st.fates == st.verdicts
  {
    hide Accounted;
    IdleVerdicts(st);
    assert InOrder(st, s);
    IdleAccount(Of(st.asked, s), Of(st.told, s), Of(st.waiting, s), s in st.overtaken, st.count);
  }

  lemma IdleAccount(asked: seq<RequestId>, told: seq<RequestId>, waiting: seq<RequestId>, late: bool, n: int)
    requires Accounted(asked, told, [], waiting, late, n)
    ensures multiset(asked) == multiset(told) + multiset(waiting)
    ensures forall j, k :: 0 <= j < k < |told| ==> told[j] != told[k]
    ensures told <= asked <==> !late
    ensures waiting == [] ==> |told| == |asked|
  {
    assert multiset(told) <= multiset(asked);
    Once(asked, told, n);
    assert |multiset(asked)| == |multiset(told)| + |multiset(waiting)|;
    if !late { assert asked == told + [] + waiting; }
  }

  lemma Once(asked: seq<RequestId>, told: seq<RequestId>, n: int)
    requires Increasing(asked, n) && multiset(told) <= multiset(asked)
    ensures forall j, k :: 0 <= j < k < |told| ==> told[j] != told[k]
  {
    forall j, k | 0 <= j < k < |told| ensures told[j] != told[k] {
      AtMostOne(asked, told[j], n);
      assert told == told[..k] + [told[k]] + told[k + 1..];
      assert told[j] in told[..k];
      assert multiset(told) == multiset(told[..k]) + multiset([told[k]]) + multiset(told[k + 1..]);
    }
  }

  lemma {:induction false} AtMostOne(asked: seq<RequestId>, r: RequestId, n: int)
    requires Increasing(asked, n)
    ensures multiset(asked)[r] <= 1
    decreases |asked|
  {
    if asked != [] {
      var front, last := asked[..|asked| - 1], asked[|asked| - 1];
      assert asked == front + [last];
      AtMostOne(front, r, n);
      assert last !in front;
    }
  }

  const NewState := State(map[], {}, 0, map[], map[], map[], map[], [], {}, [], [])

  lemma NewInv()
    ensures Inv(NewState)
  {
    hide Increasing;
    forall s ensures InOrder(NewState, s) { Nothing(); }
  }

  lemma Nothing()
    ensures Increasing([], 0)
  {
  }

  /** Requests can be overtaken: two wait for a load; the first, called back, asks
      again and that load completes at once; the third is told before the second. */
  lemma SynchronousReentry(s: Script)
    ensures var twoDue := Told(Opened(Asked(Asked(NewState, s), s), s, true));
      var st := Told(Opened(Asked(twoDue, s), s, true));
      Of(st.asked, s) == [0, 1, 2] && Of(st.told, s) == [0, 2] && s in st.overtaken
  {
    TwoDue(s);
    var st1 := Told(Opened(Asked(Asked(NewState, s), s), s, true));
    TellThird(st1, s);
  }

  lemma TwoDue(s: Script)
    ensures var st := Told(Opened(Asked(Asked(NewState, s), s), s, true));
      && st.count == 2 && Of(st.asked, s) == [0, 1] && Of(st.told, s) == [0] && Of(st.waiting, s) == []
      && st.stack == [Batch(s, true, [1])]
  {
    var one := Asked(NewState, s);
    assert Of(one.asked, s) == [0] && Of(one.waiting, s) == [0];
    var two := Asked(one, s);
    assert Of(two.asked, s) == [0, 1] && Of(two.waiting, s) == [0, 1];
    var due := Opened(two, s, true);
    assert due.stack == [Batch(s, true, [0, 1])] && Below(due) == [];
    assert [0, 1][1..] == [1];
  }

  lemma TellThird(st: State, s: Script)
    requires st.count == 2 && Of(st.asked, s) == [0, 1] && Of(st.told, s) == [0] && Of(st.waiting, s) == []
    requires st.stack == [Batch(s, true, [1])]
    ensures var st' := Told(Opened(Asked(st, s), s, true));
      Of(st'.asked, s) == [0, 1, 2] && Of(st'.told, s) == [0, 2] && s in st'.overtaken
  {
    var again := Opened(Asked(st, s), s, true);
    assert [] + [2] == [2] && again.stack == st.stack + [Batch(s, true, [2])];
    assert Below(again) == st.stack;
    assert st.stack == [] + [Batch(s, true, [1])];
    DueAppend([], Batch(s, true, [1]), s);
    assert |Due(st.stack, s)| == 1;
  }

  // ------------------------------------------------------------------- the loader

  class OnlyOnceScriptLoader {
    var callbackMap: map<Script, seq<RequestId>>
    var loading: set<Script>
    var count: int
    var actions: seq<Action>
    ghost var asked: map<Script, seq<RequestId>>
    ghost var told: map<Script, seq<RequestId>>
    ghost var fates: map<(Script, RequestId), bool>
    ghost var verdicts: map<(Script, RequestId), bool>
    ghost var stack: seq<Batch>
    ghost var overtaken: set<Script>
    ghost var started: seq<Script>
    ghost var ended: seq<Script>

    ghost function St(): State
      reads this
    {
      State(callbackMap, loading, count, asked, told, fates, verdicts, stack, overtaken, started, ended)
    }

    constructor (actions: seq<Action>)
      ensures Inv(St()) && St() == NewState && this.actions == actions
    {
      hide Inv;
      NewInv();
      callbackMap, loading, count, this.actions := map[], {}, 0, actions;
      asked, told, fates, verdicts := map[], map[], map[], map[];
      stack, overtaken, started, ended := [], {}, [], [];
    }

    /** The bookkeeping of `load`; `first` if it has to start loading. */
    method Enter(s: Script) returns (first: bool)
      requires callbackMap.Keys == loading
      modifies this
      ensures St() == Asked(old(St()), s) && actions == old(actions)
      ensures first <==> s !in old(loading)
    {
      var request := count;
      count := count + 1;
      asked := asked[s := Of(asked, s) + [request]];
      first := s !in callbackMap;
      if s in callbackMap {
        callbackMap := callbackMap[s := callbackMap[s] + [request]];
      } else {
        callbackMap := callbackMap[s := [request]];
        assert [] + [request] == [request];
      }
      started := started + if s in loading then [] else [s];
      loading := loading + {s};
    }

    /** A request joins those that wait for a load under way, and then nothing else
        happens; otherwise it starts one, and foreign code runs from inside that start. */
    method Load(s: Script)
      requires Inv(St())
      modifies this
      ensures Inv(St()) && Grows(old(St()), St()) && stack == old(stack) && |actions| <= old(|actions|)
      ensures Of(old(asked), s) + [old(count)] <= Of(asked, s)
      ensures s in old(loading) ==> St() == Asked(old(St()), s) && started == old(started) && actions == old(actions)
      ensures s !in old(loading) ==> old(started) + [s] <= started && (old(actions) != [] ==> actions != old(actions))
      ensures Plays(old(St()), old(actions), St(), actions, [Ask(s)])
      decreases |actions|, 1
    {
      hide Inv, Due, Told, Closed, InOrder, Accounted, Replay, Act, Plays;
      ghost var st0, n := St(), actions;
      LoadingIsWaiting(st0);
      PlaysAsk(st0, n, s);
      AskedKeeps(st0, s);
      StepGrows(st0, s, true);
      var first := Enter(s);
      if first {
        RunForeign();
        GrowsTrans(st0, Asked(st0, s), St());
        PlaysTrans(st0, n, Asked(st0, s), n, St(), actions, [Ask(s)]);
      }
    }

    /** A load is over: its list of callbacks is taken out. */
    method Take(s: Script, ghost ok: bool) returns (scriptCallbacks: seq<RequestId>)
      requires s in callbackMap
      modifies this
      ensures St() == Opened(old(St()), s, ok) && actions == old(actions) && scriptCallbacks == old(callbackMap)[s]
      ensures stack == old(stack) + [Batch(s, ok, scriptCallbacks)]
    {
      verdicts := Settled(verdicts, s, callbackMap[s], ok);
      loading := loading - {s};
      ended := ended + [s];
      scriptCallbacks := callbackMap[s];
      callbackMap := callbackMap - {s};
      stack := stack + [Batch(s, ok, scriptCallbacks)];
    }

    /** `triggerCallback` if ok, else `triggerErrorback`: all who waited for the load are
        called back that way, and foreign code runs in each callback. */
    method Trigger(s: Script, ok: bool)
      requires Inv(St()) && s in loading
      modifies this
      ensures Inv(St()) && Grows(old(St()), St()) && stack == old(stack) && |actions| <= old(|actions|)
      ensures Answered(fates, s, old(callbackMap)[s], ok)
      ensures old(callbackMap)[s] != [] && old(actions) != [] ==> actions != old(actions)
      ensures Plays(old(St()), old(actions), St(), actions, [Complete(s, ok)])
      decreases |actions|, 2
    {
      hide Inv, Halfway, Plays, Opened, Grows, Answered;
      ghost var st0, n := St(), actions;
      LoadingWaits(st0, s);
      HalfwayStarts(st0, n, s, ok);
      var scriptCallbacks := Take(s, ok);
      for i := 0 to |scriptCallbacks|
        invariant Halfway(st0, n, St(), actions, s, ok, scriptCallbacks, i)
      {
        ghost var st1, k := St(), actions;
        HalfwayNext(st0, n, st1, k, s, ok, scriptCallbacks, i);
        CallNext(s, scriptCallbacks[i], ok);
        HalfwayOn(st0, n, st1, k, St(), actions, s, ok, scriptCallbacks, i);
      }
      ghost var st1 := St();
      HalfwayEnds(st0, n, st1, actions, s, ok, scriptCallbacks);
      CloseBatch(st0, s, ok);
      PlaysNone(st1, actions, St());
      PlaysTrans(st0, n, st1, actions, St(), actions, [Complete(s, ok)]);
    }

    ghost method CloseBatch(st0: State, s: Script, ok: bool)
      requires Inv(St()) && Grows(st0, St()) && stack == st0.stack + [Batch(s, ok, [])]
      modifies `stack
      ensures Inv(St()) && Grows(st0, St()) && stack == st0.stack
      ensures fates == old(fates) && LedgerOf(St()) == LedgerOf(old(St()))
    {
      hide Inv, Grows, Due;
      ClosedKeeps(St());
      StepGrows(St(), s, ok);
      GrowsTrans(st0, St(), Closed(St()));
      stack := stack[..|stack| - 1];
    }

    /** One callback, or one errorback, and the foreign code in it. */
    method CallNext(s: Script, r: RequestId, ok: bool)
      requires Inv(St()) && stack != [] && Top(St()).script == s && Top(St()).ok == ok
      requires Top(St()).rest != [] && Top(St()).rest[0] == r
      modifies this
      ensures Inv(St()) && Grows(old(St()), St()) && |actions| <= old(|actions|)
      ensures HasFate(fates, s, r) && fates[(s, r)] == ok
      ensures stack == old(Below(St())) + [old(Top(St())).(rest := old(Top(St())).rest[1..])]
      ensures old(actions) != [] ==> |actions| < |old(actions)|
      ensures Plays(old(St()), old(actions), St(), actions, [])
      ensures old(actions) != [] && old(actions)[0].Return? ==> St() == Told(old(St())) && actions == old(actions)[1..]
      decreases |actions|, 1
    {
      hide Inv, Due, Plays, Grows;
      ghost var st0, n := St(), actions;
      ToldKeeps(st0);
      ToldGrows(st0);
      CallBack(s, r);
      ghost var st1 := St();
      ToldFate(st0);
      RunForeign();
      GrowsTrans(st0, st1, St());
      StillFate(st1, St(), s, r);
      PlaysNone(st0, n, st1);
      PlaysTrans(st0, n, st1, n, St(), actions, []);
    }

    ghost method CallBack(s: Script, r: RequestId)
      requires stack != [] && Top(St()).script == s && Top(St()).rest != [] && Top(St()).rest[0] == r
      modifies `told, `fates, `stack, `overtaken
      ensures St() == Told(old(St()))
    {
      overtaken := if Due(Below(St()), s) == [] then overtaken else overtaken + {s};
      told := told[s := Of(told, s) + [r]];
      fates := fates[(s, r) := Top(St()).ok];
      stack := stack[..|stack| - 1] + [Top(St()).(rest := Top(St()).rest[1..])];
    }

    /** Foreign code: asks for scripts and completes loads until it returns. */
    method RunForeign()
      requires Inv(St())
      modifies this
      ensures Inv(St()) && Grows(old(St()), St()) && stack == old(stack) && |actions| <= old(|actions|)
      ensures old(actions) != [] ==> |actions| < |old(actions)|
      ensures Plays(old(St()), old(actions), St(), actions, [])
      ensures actions != [] ==> old(actions)[|old(actions)| - |actions| - 1].Return?
      ensures old(actions) != [] && old(actions)[0].Return? ==> St() == old(St()) && actions == old(actions)[1..]
      decreases |actions|, 0
    {
      hide Inv, Grows, Plays, Act, Asked, LedgerOf;
      ghost var st0, n := St(), actions;
      PlaysNone(st0, n, st0);
      GrowsRefl(st0);
      while actions != []
        invariant Inv(St()) && Grows(st0, St()) && stack == st0.stack && |actions| <= |n|
        invariant actions == n || |actions| < |n|
        invariant n != [] && n[0].Return? ==> actions == n && St() == st0
        invariant Plays(st0, n, St(), actions, [])
        decreases |actions|
      {
        ghost var st1, k := St(), actions;
        var a := actions[0];
        actions := actions[1..];
        match a {
          case Ask(s) => Load(s);
          case Complete(s, ok) =>
            if s in loading {
              Trigger(s, ok);
            } else {
              PlaysIdle(st1, actions, a);
              GrowsRefl(st1);
            }
          case Return =>
            PlaysIdle(st1, actions, a);
            PlaysNext(st1, k, St(), actions);
            PlaysTrans(st0, n, st1, k, St(), actions, []);
            TakenLast(st0, n, st1, k);
            return;
        }
        GrowsTrans(st0, st1, St());
        PlaysNext(st1, k, St(), actions);
        PlaysTrans(st0, n, st1, k, St(), actions, []);
      }
    }
  }
}
