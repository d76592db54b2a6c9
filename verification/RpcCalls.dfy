/** Outgoing calls of the RPC layer: message ids from a wrapping 32-bit counter,
    and a map of callbacks that wait for the response with their id. */
module RpcCalls {
  import opened Options

  type MessageId = int
  type CallId = int
  type StreamKey = int

  const TWO32 := 0x1_0000_0000

  datatype Outcome = Error(code: int) | Success(body: seq<int>)

  type Pending = map<MessageId, CallId>

  /** The parts of an incoming message the dispatcher looks at. */
  datatype Incoming = Request | Failed(id: MessageId, code: int) | Answer(id: MessageId, body: seq<int>)

  /** What the callback is run with. */
  function OutcomeOf(m: Incoming): Outcome
    requires !m.Request?
  {
    match m
    case Failed(_, code) => Error(code)
    case Answer(_, body) => Success(body)
  }

  /** What `fetch_add(1)` leaves in the counter. */
  function Bumped(counter: int): int
  {
    (counter + 1) % TWO32
  }

  /** The n-th id after `start`. */
  function IdAt(start: int, n: int): MessageId
  {
    (start + n) % TWO32
  }

  /** Two ids of one counter differ unless the counter went around in between. */
  lemma IdsCollide(start: int, m: int, n: int)
    requires 0 <= m <= n
    ensures IdAt(start, m) == IdAt(start, n) <==> (n - m) % TWO32 == 0
  {
    var a, b := start + m, start + n;
    assert a == TWO32 * (a / TWO32) + a % TWO32 && b == TWO32 * (b / TWO32) + b % TWO32;
    var q := b / TWO32 - a / TWO32;
    assert n - m == TWO32 * q + (b % TWO32 - a % TWO32);
  }

  /** The shared state; each method is one atomic operation on it. */
  class Calls {
    var counter: int
    var pending: Pending

    method NextMessageId() returns (id: MessageId)
      modifies this`counter
      ensures id == old(counter) && counter == Bumped(old(counter))
    {
      id := counter;
      counter := (counter + 1) % TWO32;
    }

    /** The last step of `call`. */
    method Insert(id: MessageId, callback: CallId)
      modifies this`pending
      ensures pending == old(pending)[id := callback]
    {
      pending := pending[id := callback];
    }

    /** `dispatch_with_partial`, as far as calls are concerned: the callback that is
        run, if any, and what it is given. */
    method Dispatch(m: Incoming) returns (run: Option<CallId>)
      modifies this`pending
      ensures (pending, run) == Dispatched(old(pending), m)
    {
      run := None;
      if !m.Request? {
        if m.id in pending {
          run := Some(pending[m.id]);
          pending := pending - {m.id};
        }
      }
    }
  }

  function Dispatched(pending: Pending, m: Incoming): (Pending, Option<CallId>)
  {
    if m.Request? || m.id !in pending then (pending, None) else (pending - {m.id}, Some(pending[m.id]))
  }

  // ---------------------------------------------------------------------- runs

  /** `call` allocates its id, sends the request, and only then inserts its
      callback; a send that fails drops the call. */
  datatype Phase = Allocated | Sent | Registered | Dropped

  /** A call: its place in the order of allocations, the responses with its id since
      the callback was inserted, and what the callback has been given. */
  datatype Call = Call(number: int, id: MessageId, phase: Phase, since: seq<Incoming>, given: seq<Outcome>)

  /** A stream of a request: its place in the order of allocations, and its id. */
  datatype Slot = Slot(number: int, id: MessageId)

  datatype Holder = OfCall(call: CallId) | OfStream(stream: StreamKey)

  /** `holders` lists who was given an id, in the order of allocations. */
  datatype World = World(
    counter: int, holders: seq<Holder>, pending: Pending, calls: map<CallId, Call>, streams: map<StreamKey, Slot>)

  datatype Event =
    | Allocate(call: CallId)
    | AllocateStream(stream: StreamKey)
    | Send(call: CallId, ok: bool)
    | Insert(call: CallId)
    | Dispatch(message: Incoming)

  predicate Enabled(w: World, e: Event)
  {
    match e
    case Allocate(c) => c !in w.calls
    case AllocateStream(k) => k !in w.streams
    case Send(c, _) => c in w.calls && w.calls[c].phase == Allocated
    case Insert(c) => c in w.calls && w.calls[c].phase == Sent
    case Dispatch(_) => true
  }

  /** Every registered call hears the responses with its id. */
  function Heard(calls: map<CallId, Call>, m: Incoming): map<CallId, Call>
  {
    map c | c in calls ::
      if !m.Request? && calls[c].id == m.id && calls[c].phase == Registered
      then calls[c].(since := calls[c].since + [m]) else calls[c]
  }

  function Given(calls: map<CallId, Call>, run: Option<CallId>, m: Incoming): map<CallId, Call>
  {
    if run.Some? && run.value in calls && !m.Request?
    then calls[run.value := calls[run.value].(given := calls[run.value].given + [OutcomeOf(m)])] else calls
  }

  function Next(w: World, e: Event): World
    requires Enabled(w, e)
  {
    match e
    case Allocate(c) =>
      w.(counter := Bumped(w.counter), holders := w.holders + [OfCall(c)],
         calls := w.calls[c := Call(|w.holders|, w.counter, Allocated, [], [])])
    case AllocateStream(k) =>
      w.(counter := Bumped(w.counter), holders := w.holders + [OfStream(k)],
         streams := w.streams[k := Slot(|w.holders|, w.counter)])
    case Send(c, ok) => w.(calls := w.calls[c := w.calls[c].(phase := if ok then Sent else Dropped)])
    case Insert(c) => w.(pending := w.pending[w.calls[c].id := c],
      calls := w.calls[c := w.calls[c].(phase := Registered)])
    case Dispatch(m) =>
      var (pending, run) := Dispatched(w.pending, m);
      w.(pending := pending, calls := Given(Heard(w.calls, m), run, m))
  }

  function Start(counter: int): World
  {
    World(counter, [], map[], map[], map[])
  }

  /** Every event of es is enabled when its turn comes. */
  ghost predicate Possible(start: int, es: seq<Event>)
    decreases |es|, 0
  {
    es == [] || (Possible(start, Front(es)) && Enabled(Run(start, Front(es)), Last(es)))
  }

  function Run(start: int, es: seq<Event>): World
    requires Possible(start, es)
    decreases |es|, 1
  {
    if es == [] then Start(start) else Next(Run(start, Front(es)), Last(es))
  }

  function Front(es: seq<Event>): seq<Event>
    requires es != []
  {
    es[..|es| - 1]
  }

  function Last(es: seq<Event>): Event
    requires es != []
  {
    es[|es| - 1]
  }

  /** The call or stream o has been given an id. */
  predicate Holding(w: World, o: Holder)
  {
    match o
    case OfCall(c) => c in w.calls
    case OfStream(k) => k in w.streams
  }

  function NumberOf(w: World, o: Holder): int
    requires Holding(w, o)
  {
    match o
    case OfCall(c) => w.calls[c].number
    case OfStream(k) => w.streams[k].number
  }

  function IdOf(w: World, o: Holder): MessageId
    requires Holding(w, o)
  {
    match o
    case OfCall(c) => w.calls[c].id
    case OfStream(k) => w.streams[k].id
  }

  /** Ids come from the counter, in order, for calls and streams alike. */
  ghost predicate Numbered(w: World, start: int)
  {
    && w.counter == IdAt(start, |w.holders|)
    && (forall n :: 0 <= n < |w.holders| ==> Holding(w, w.holders[n]) && NumberOf(w, w.holders[n]) == n)
    && (forall o :: Holding(w, o) ==>
          && 0 <= NumberOf(w, o) < |w.holders| && w.holders[NumberOf(w, o)] == o
          && IdOf(w, o) == IdAt(start, NumberOf(w, o)))
  }

  /** Of the responses, the first has been given to the callback, and nothing else. */
  ghost predicate Served(given: seq<Outcome>, responses: seq<Incoming>)
  {
    if responses == [] then given == [] else !responses[0].Request? && given == [OutcomeOf(responses[0])]
  }

  /** A callback waits from its insertion to the first response with its id; it is
      given that response and no other. */
  ghost predicate Matched(w: World)
  {
    && (forall c :: c in w.calls ==>
          && Served(w.calls[c].given, w.calls[c].since)
          && (w.calls[c].phase == Registered && w.calls[c].since == [] ==>
            w.calls[c].id in w.pending && w.pending[w.calls[c].id] == c)
          && (w.calls[c].phase != Registered ==> w.calls[c].since == []))
    && (forall i :: i in w.pending ==>
          && w.pending[i] in w.calls && w.calls[w.pending[i]].id == i
          && w.calls[w.pending[i]].phase == Registered && w.calls[w.pending[i]].since == [])
  }

  lemma NumberedKeeps(w: World, e: Event, start: int)
    requires Numbered(w, start) && Enabled(w, e)
    ensures Numbered(Next(w, e), start)
  {
    var v := Next(w, e);
    forall o | Holding(v, o)
      ensures 0 <= NumberOf(v, o) < |v.holders| && v.holders[NumberOf(v, o)] == o
      ensures IdOf(v, o) == IdAt(start, NumberOf(v, o))
    {
      if Holding(w, o) { assert NumberOf(v, o) == NumberOf(w, o); }
    }
  }

  /** While the counter has not gone around, no two calls or streams share an id. */
  lemma DistinctIds(w: World, start: int, o: Holder, p: Holder)
    requires Numbered(w, start) && |w.holders| <= TWO32 && Holding(w, o) && Holding(w, p) && o != p
    ensures IdOf(w, o) != IdOf(w, p)
  {
    var m, n := NumberOf(w, o), NumberOf(w, p);
    if m < n { IdsCollide(start, m, n); } else { IdsCollide(start, n, m); }
  }

  lemma CallsDiffer(w: World, start: int)
    requires Numbered(w, start) && |w.holders| <= TWO32
    ensures forall c, d :: c in w.calls && d in w.calls && c != d ==> w.calls[c].id != w.calls[d].id
  {
    forall c, d | c in w.calls && d in w.calls && c != d ensures w.calls[c].id != w.calls[d].id {
      DistinctIds(w, start, OfCall(c), OfCall(d));
    }
  }

  lemma MatchedKeeps(w: World, e: Event, start: int)
    requires Numbered(w, start) && Matched(w) && Enabled(w, e) && |w.holders| <= TWO32
    ensures Matched(Next(w, e))
  {
    hide Numbered;
    CallsDiffer(w, start);
    match e
    case Allocate(_) =>
    case AllocateStream(_) =>
    case Send(_, _) =>
    case Insert(_) =>
    case Dispatch(_) =>
  }

  lemma {:induction false} RunKeeps(start: int, es: seq<Event>)
    requires 0 <= start < TWO32 && Possible(start, es) && |Run(start, es).holders| <= TWO32
    ensures Numbered(Run(start, es), start) && Matched(Run(start, es))
    decreases |es|
  {
    if es != [] {
      RunKeeps(start, Front(es));
      NumberedKeeps(Run(start, Front(es)), Last(es), start);
      MatchedKeeps(Run(start, Front(es)), Last(es), start);
    }
  }

  // -------------------------------------------------------- what the events say

  /** Who was given an id, in order. */
  function Allocations(es: seq<Event>): seq<Holder>
  {
    if es == [] then []
    else match Last(es)
      case Allocate(c) => Allocations(Front(es)) + [OfCall(c)]
      case AllocateStream(k) => Allocations(Front(es)) + [OfStream(k)]
      case _ => Allocations(Front(es))
  }

  /** The response with this id that an event brings, if any. */
  function Response(e: Event, id: MessageId): seq<Incoming>
  {
    match e
    case Dispatch(Failed(i, code)) => if i == id then [Failed(i, code)] else []
    case Dispatch(Answer(i, body)) => if i == id then [Answer(i, body)] else []
    case _ => []
  }

  /** The responses with this id that came after the callback of c was inserted. */
  function Responses(es: seq<Event>, c: CallId, id: MessageId): seq<Incoming>
  {
    if es == [] then []
    else Responses(Front(es), c, id) + if Insert(c) in Front(es) then Response(Last(es), id) else []
  }

  lemma OneMore(es: seq<Event>, e: Event)
    requires es != []
    ensures e in es <==> e in Front(es) || e == Last(es)
  {
    assert es == Front(es) + [Last(es)];
  }

  /** What the events say of call c is what its record says. */
  ghost predicate Tells(es: seq<Event>, w: World, c: CallId)
  {
    && (c in w.calls <==> Allocate(c) in es)
    && (c !in w.calls ==> Send(c, true) !in es && Send(c, false) !in es && Insert(c) !in es)
    && (c in w.calls ==>
          && (w.calls[c].phase == Dropped <==> Send(c, false) in es)
          && (w.calls[c].phase == Sent || w.calls[c].phase == Registered <==> Send(c, true) in es)
          && (w.calls[c].phase == Registered <==> Insert(c) in es)
          && w.calls[c].since == Responses(es, c, w.calls[c].id))
  }

  lemma {:induction false} NotYet(es: seq<Event>, c: CallId, id: MessageId)
    requires Insert(c) !in es
    ensures Responses(es, c, id) == []
    decreases |es|
  {
    if es != [] { NotYet(Front(es), c, id); }
  }

  lemma StepHears(w: World, e: Event, c: CallId)
    requires Enabled(w, e) && c in w.calls
    ensures c in Next(w, e).calls && Next(w, e).calls[c].id == w.calls[c].id
    ensures Next(w, e).calls[c].since ==
      w.calls[c].since + if w.calls[c].phase == Registered then Response(e, w.calls[c].id) else []
  {
  }

  lemma StepResponses(start: int, es: seq<Event>, c: CallId)
    requires es != [] && Possible(start, es) && Tells(Front(es), Run(start, Front(es)), c) && c in Run(start, es).calls
    ensures Run(start, es).calls[c].since == Responses(es, c, Run(start, es).calls[c].id)
  {
    var w := Run(start, Front(es));
    if c in w.calls {
      hide Next, Response, Enabled;
      StepHears(w, Last(es), c);
    } else {
      NotYet(Front(es), c, Run(start, es).calls[c].id);
    }
  }

  lemma StepTells(start: int, es: seq<Event>, c: CallId)
    requires es != [] && Possible(start, es) && Tells(Front(es), Run(start, Front(es)), c)
    ensures Tells(es, Run(start, es), c)
  {
    hide Responses, Dispatched;
    OneMore(es, Allocate(c));
    OneMore(es, Send(c, true));
    OneMore(es, Send(c, false));
    OneMore(es, Insert(c));
    if c in Run(start, es).calls { StepResponses(start, es, c); }
  }

  lemma {:induction false} RunTells(start: int, es: seq<Event>, c: CallId)
    requires Possible(start, es)
    ensures Tells(es, Run(start, es), c)
    decreases |es|
  {
    if es != [] {
      RunTells(start, Front(es), c);
      StepTells(start, es, c);
    }
  }

  lemma {:induction false} RunAllocates(start: int, es: seq<Event>)
    requires Possible(start, es)
    ensures Run(start, es).holders == Allocations(es)
    decreases |es|
  {
    if es != [] { RunAllocates(start, Front(es)); }
  }

  // ------------------------------------------------------------------ theorems

  ghost predicate Reachable(w: World)
  {
    exists start, es :: 0 <= start < TWO32 && Possible(start, es) && Run(start, es) == w
  }

  lemma {:induction false} RunNumbered(start: int, es: seq<Event>)
    requires 0 <= start < TWO32 && Possible(start, es)
    ensures Numbered(Run(start, es), start)
    decreases |es|
  {
    hide Next;
    if es != [] {
      RunNumbered(start, Front(es));
      NumberedKeeps(Run(start, Front(es)), Last(es), start);
    }
  }

  /** What becomes of a call is what happened to it: the n-th allocation gets the n-th
      id; a call is dropped exactly when its send failed, goes on exactly when it
      succeeded, and its callback is in exactly when it was inserted, which can happen
      once, after a successful send. */
  lemma PhaseFromEvents(start: int, es: seq<Event>, c: CallId)
    requires 0 <= start < TWO32 && Possible(start, es)
    ensures var w := Run(start, es);
      && w.holders == Allocations(es) && (c in w.calls <==> Allocate(c) in es)
      && (Enabled(w, Event.Insert(c)) <==> Send(c, true) in es && Insert(c) !in es)
      && (forall ok :: Enabled(w, Event.Send(c, ok)) <==>
            Allocate(c) in es && Send(c, true) !in es && Send(c, false) !in es)
      && (c in w.calls ==>
            && 0 <= w.calls[c].number < |w.holders| && w.holders[w.calls[c].number] == OfCall(c)
            && w.calls[c].id == (start + w.calls[c].number) % TWO32
            && (w.calls[c].phase == Dropped <==> Send(c, false) in es)
            && (w.calls[c].phase == Sent || w.calls[c].phase == Registered <==> Send(c, true) in es)
            && (w.calls[c].phase == Registered <==> Insert(c) in es))
  {
    RunTells(start, es, c);
    RunAllocates(start, es);
    RunNumbered(start, es);
    var w := Run(start, es);
    assert c in w.calls ==> Holding(w, OfCall(c)) && NumberOf(w, OfCall(c)) == w.calls[c].number;
  }

  /** One counter serves calls and streams: the ids given out so far are all different
      exactly while there are at most 2^32 of them. */
  lemma SharedIds(w: World)
    requires Reachable(w)
    ensures (forall o, p :: Holding(w, o) && Holding(w, p) && o != p ==> IdOf(w, o) != IdOf(w, p)) <==>
      |w.holders| <= TWO32
  {
    var start, es :| 0 <= start < TWO32 && Possible(start, es) && Run(start, es) == w;
    RunNumbered(start, es);
    if |w.holders| <= TWO32 {
      forall o, p | Holding(w, o) && Holding(w, p) && o != p ensures IdOf(w, o) != IdOf(w, p) {
        DistinctIds(w, start, o, p);
      }
    } else {
      var o, p := w.holders[0], w.holders[TWO32];
      assert NumberOf(w, o) == 0 && NumberOf(w, p) == TWO32;
      IdsCollide(start, 0, TWO32);
      assert Holding(w, o) && Holding(w, p) && o != p && IdOf(w, o) == IdOf(w, p);
    }
  }

  /** So an id is new when it is given out, for a stream as for a call, as long as fewer
      than 2^32 were given out before. */
  lemma NextIdIsNew(w: World, o: Holder)
    requires Reachable(w) && |w.holders| < TWO32 && Holding(w, o)
    ensures IdOf(w, o) != w.counter
  {
    var start := ReachableMatched(w);
    IdsCollide(start, NumberOf(w, o), |w.holders|);
  }

  lemma ReachableMatched(w: World) returns (start: int)
    requires Reachable(w) && |w.holders| <= TWO32
    ensures Numbered(w, start) && Matched(w)
  {
    var s, es :| 0 <= s < TWO32 && Possible(s, es) && Run(s, es) == w;
    start := s;
    RunKeeps(s, es);
  }

  /** Before the counter goes around, no call replaces a callback that waits. */
  lemma NoOverwrite(w: World, c: CallId)
    requires Reachable(w) && |w.holders| <= TWO32 && Enabled(w, Event.Insert(c))
    ensures w.calls[c].id !in w.pending
  {
    var start := ReachableMatched(w);
    if w.calls[c].id in w.pending {
      DistinctIds(w, start, OfCall(c), OfCall(w.pending[w.calls[c].id]));
    }
  }

  /** A callback runs at most once, with the first response to its own id that was
      dispatched after it was inserted: an answer as a success with its body, a failure
      as an error with its code. It waits exactly when the call was sent and inserted
      and no such response has come. */
  lemma CallMatching(start: int, es: seq<Event>, c: CallId)
    requires 0 <= start < TWO32 && Possible(start, es) && |Allocations(es)| <= TWO32 && Allocate(c) in es
    ensures c in Run(start, es).calls
    ensures var w := Run(start, es); var responses := Responses(es, c, w.calls[c].id);
      && (responses == [] ==> w.calls[c].given == [])
      && (responses != [] && responses[0].Answer? ==> w.calls[c].given == [Success(responses[0].body)])
      && (responses != [] && responses[0].Failed? ==> w.calls[c].given == [Error(responses[0].code)])
      && (responses != [] ==> responses[0].Answer? || responses[0].Failed?)
      && ((exists i :: i in w.pending && w.pending[i] == c) <==>
            Send(c, true) in es && Insert(c) in es && responses == [])
  {
    RunTells(start, es, c);
    RunAllocates(start, es);
    RunKeeps(start, es);
    var w := Run(start, es);
    assert Served(w.calls[c].given, w.calls[c].since);
  }

  /** The request is sent before the callback is inserted: a response dispatched in
      between is lost, and the callback then waits for one that has been. */
  lemma ResponseBeforeInsert(w: World, c: CallId, m: Incoming)
    requires Reachable(w) && |w.holders| <= TWO32 && c in w.calls && w.calls[c].phase == Sent
    requires !m.Request? && m.id == w.calls[c].id
    ensures Enabled(Next(w, Event.Dispatch(m)), Event.Insert(c))
    ensures var w' := Next(Next(w, Event.Dispatch(m)), Event.Insert(c));
      c in w'.calls && w'.calls[c].given == [] && m.id in w'.pending && w'.pending[m.id] == c
  {
    var start := ReachableMatched(w);
    NoOverwrite(w, c);
  }

  /** The bound is needed: an allocation 2^32 later gets the id of a callback that
      still waits, and its insertion replaces that callback. */
  lemma WrappedIdReplaces(w: World, start: int, c: CallId, d: CallId)
    requires Numbered(w, start) && c in w.calls && d in w.calls && c != d
    requires w.calls[c].phase == Registered && w.calls[c].id in w.pending && w.pending[w.calls[c].id] == c
    requires Enabled(w, Event.Insert(d))
    ensures
      var v, id := Next(w, Event.Insert(d)), w.calls[c].id;
      id in v.pending && v.pending[id] == c <==> (w.calls[d].number - w.calls[c].number) % TWO32 != 0
  {
    var m, n := NumberOf(w, OfCall(c)), NumberOf(w, OfCall(d));
    if m < n { IdsCollide(start, m, n); } else { IdsCollide(start, n, m); }
    assert (n - m) % TWO32 == 0 <==> (m - n) % TWO32 == 0;
  }
}
