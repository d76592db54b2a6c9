/** What holds of the streams after every run. */
module StreamTheorems {
  import opened Options
  import opened Streams
  import opened StreamRuns

  // ------------------------------------------------------- what the events say

  /** What the events tell of a write half: the id it was inserted under, the buffers
      passed to `write` for it, what the writes did with them, whether it was removed. */
  datatype Tale = Tale(id: Option<StreamId>, accepted: seq<Bytes>, pieces: seq<Piece>, removed: bool)

  /** There is a record for id, and it is that of h. */
  predicate IsFor(w: World, id: StreamId, h: Handle)
  {
    id in w.records && id in w.current && w.current[id] == h
  }

  /** An event at w that is enabled goes on with the tale of h. */
  function GoesOn(w: World, e: Event, h: Handle, tale: Tale): Tale
  {
    if !Enabled(w, e) then tale else
    match e
    case Insert(id, stream) => if stream == h then tale.(id := Some(id)) else tale
    case Write(id, buf, _) => if IsFor(w, id, h) then tale.(accepted := tale.accepted + [buf]) else tale
    case Remove(id, _) => if IsFor(w, id, h) then tale.(removed := true) else tale
    case Send(t, n) =>
      if w.loops[t].w == h then tale.(pieces := tale.pieces + [Out(w.loops[t].items[0][..n])]) else tale
    case SendFails(t, n) =>
      if w.loops[t].w == h then
        var batch := w.loops[t].items;
        tale.(pieces := tale.pieces + [Out(batch[0][..n]), Lost(batch[0][n..] + Flat(batch[1..]))])
      else tale
    case _ => tale
  }

  function TaleOf(events: seq<Event>, h: Handle): Tale
  {
    if events == [] then Tale(None, [], [], false)
    else GoesOn(Run(events[..|events| - 1]), events[|events| - 1], h, TaleOf(events[..|events| - 1], h))
  }

  ghost predicate TaleTold(w: World, h: Handle, tale: Tale)
  {
    if h in w.stories then
      var s := w.stories[h];
      tale == Tale(Some(s.id), s.accepted, s.pieces, s.removed)
    else tale == Tale(None, [], [], false)
  }

  lemma StepTold(w: World, e: Event, h: Handle, tale: Tale)
    requires Inv(w) && TaleTold(w, h, tale)
    ensures TaleTold(Next(w, e), h, GoesOn(w, e, h, tale))
  {
    hide Flat, Conserved, Total, Output;
    if Enabled(w, e) {
      match e
      case Insert(_, _) => if h in w.stories { InvConserved(w, h); ConservedWire(w, h); }
      case Write(id, _, _) => if id in w.records { InvConserved(w, w.current[id]); }
      case Remove(id, _) => if id in w.records { InvConserved(w, w.current[id]); }
      case Section(t) => InvConserved(w, w.loops[t].w);
      case Send(t, _) =>
      case SendFails(t, _) =>
      case Shutdown(t) =>
      case Close(t) =>
    }
  }

  /** The story kept of a write half is what the events tell. */
  lemma {:induction false} StoryFromEvents(events: seq<Event>, h: Handle)
    ensures TaleTold(Run(events), h, TaleOf(events, h))
    decreases |events|
  {
    hide Inv, GoesOn, Next, TaleTold;
    if events != [] {
      StoryFromEvents(events[..|events| - 1], h);
      RunKeeps(events[..|events| - 1]);
      StepTold(Run(events[..|events| - 1]), events[|events| - 1], h, TaleOf(events[..|events| - 1], h));
    } else {
      NothingTold(h);
    }
  }

  lemma NothingTold(h: Handle)
    ensures TaleTold(Start, h, Tale(None, [], [], false))
  {
  }

  // ------------------------------------------------------------------ theorems

  /** Loop t holds the write half h, or is at work on the record of id. */
  predicate Holds(w: World, t: TaskId, id: StreamId, h: Handle)
  {
    t in w.loops && (w.loops[t].w == h || (w.loops[t].id == id && w.loops[t].phase != Closing))
  }

  /** A live record either holds its write half, idle, and nobody else does, or
      exactly one loop holds it; no other loop works on the record. */
  lemma SingleOwnership(events: seq<Event>, id: StreamId)
    requires id in Run(events).records
    ensures var w := Run(events); id in w.current && w.current[id] in w.stories
    ensures var w := Run(events); var rec, h := w.records[id], w.current[id];
      if rec.write.Some? then
        && rec == StreamRec(Some(h), [], false)
        && (forall t :: !Holds(w, t, id, h)) && (forall t :: t in w.closers ==> w.closers[t].w != h)
      else
        && (exists t :: t in w.loops && w.loops[t].id == id && w.loops[t].w == h)
        && (forall t, u :: Holds(w, t, id, h) && Holds(w, u, id, h) ==> t == u)
        && (forall t :: t in w.closers ==> w.closers[t].w != h)
  {
    var w := Run(events);
    RunKeeps(events);
    assert Known(w, id) && w.stories[w.current[id]].id == id;
    var h := w.current[id];
    InvConserved(w, h);
    forall t | Holds(w, t, id, h) ensures w.stories[h].owner == LoopTask(t) {
      InvConserved(w, w.loops[t].w);
    }
  }

  /** The branch of the write loop for a missing record is never taken, and the record
      is the one of its write half. */
  lemma RecordIsThere(events: seq<Event>, t: TaskId)
    requires t in Run(events).loops && Run(events).loops[t].phase == Locking
    ensures var w := Run(events); var l := w.loops[t];
      l.id in w.records && l.id in w.current && w.current[l.id] == l.w && l.items == []
  {
    RunKeeps(events);
    InvConserved(Run(events), Run(events).loops[t].w);
  }

  /** No write has failed. */
  predicate Clean(pieces: seq<Piece>)
  {
    forall k :: 0 <= k < |pieces| ==> pieces[k].Out?
  }

  lemma {:induction false} CleanOutput(pieces: seq<Piece>)
    requires Clean(pieces)
    ensures Output(pieces) == Total(pieces)
    decreases |pieces|
  {
    if pieces != [] { CleanOutput(pieces[..|pieces| - 1]); }
  }

  /** What the writes have put out or lost, then the batch in hand, then the queue, are
      the buffers accepted, in call order; what has been written is what was put out.
      A failed write has lost the rest of its batch, and nothing else is lost. So as
      long as no write has failed, what was written begins what was accepted. */
  lemma BytesConserved(events: seq<Event>, h: Handle)
    requires TaleOf(events, h).id.Some?
    ensures var w, tale := Run(events), TaleOf(events, h);
      && h in w.stories && h in w.wires
      && Total(tale.pieces) + Flat(InHand(w, h)) + Flat(Queued(w, h)) == Flat(tale.accepted)
      && w.wires[h].written == Output(tale.pieces)
      && (Clean(tale.pieces) ==>
            && w.wires[h].written + Flat(InHand(w, h)) + Flat(Queued(w, h)) == Flat(tale.accepted)
            && w.wires[h].written <= Flat(tale.accepted))
  {
    hide Inv, Flat, InHand, Queued, Owned, TaleOf, Total, Output;
    var w, tale := Run(events), TaleOf(events, h);
    RunKeeps(events);
    StoryFromEvents(events, h);
    InvConserved(w, h);
    if Clean(tale.pieces) {
      CleanOutput(tale.pieces);
      Prefixed(w.wires[h].written, Flat(InHand(w, h)), Flat(Queued(w, h)));
    }
  }

  /** After a failed write the loop goes on with an empty batch, and whatever is queued
      then or accepted later is still to be written. */
  lemma FailedWrite(events: seq<Event>, t: TaskId, n: int)
    requires Enabled(Run(events), SendFails(t, n))
    ensures var w, v := Run(events), Next(Run(events), SendFails(t, n)); var h := w.loops[t].w;
      && h in w.stories && h in v.stories && h in w.wires && h in v.wires
      && InHand(v, h) == [] && Queued(v, h) == Queued(w, h) && v.stories[h].owner == LoopTask(t)
      && (Live(w, h) ==> Enabled(v, Section(t)))
      && v.wires[h].written == w.wires[h].written + InHand(w, h)[0][..n]
  {
    RunKeeps(events);
    InvConserved(Run(events), Run(events).loops[t].w);
  }

  lemma Prefixed(a: Bytes, b: Bytes, c: Bytes)
    ensures a <= a + b + c
  {
    assert a + b + c == a + (b + c);
  }

  /** The write half h has been shut down, or somebody is about to do so. */
  predicate Ending(w: World, h: Handle)
    requires h in w.wires
  {
    || w.wires[h].shutdowns > 0
    || (exists t :: t in w.loops && w.loops[t].w == h && w.loops[t].phase == Closing)
    || (exists t :: t in w.closers && w.closers[t].w == h)
  }

  /** A write half is shut down at most once, exactly after `remove` and when its
      record is gone, and only when all accepted bytes are out or lost. */
  lemma CleanEnd(events: seq<Event>, h: Handle)
    requires TaleOf(events, h).id.Some?
    ensures var w, tale := Run(events), TaleOf(events, h);
      && h in w.stories && h in w.wires && 0 <= w.wires[h].shutdowns <= 1
      && (Ending(w, h) <==> tale.removed && !Live(w, h))
      && (Ending(w, h) ==> Total(tale.pieces) == Flat(tale.accepted))
      && (Ending(w, h) && Clean(tale.pieces) ==> w.wires[h].written == Flat(tale.accepted))
  {
    var w, tale := Run(events), TaleOf(events, h);
    hide TaleOf, Total, Output;
    RunKeeps(events);
    StoryFromEvents(events, h);
    InvConserved(w, h);
    if Clean(tale.pieces) { CleanOutput(tale.pieces); }
    forall t | t in w.loops && w.loops[t].w == h ensures w.stories[h].owner == LoopTask(t) { }
    forall t | t in w.closers && w.closers[t].w == h ensures w.stories[h].owner == CloserTask(t) { }
  }

  /** Once shut down, nothing more is accepted for it or written to it. */
  lemma {:induction false} ShutdownIsFinal(events: seq<Event>, more: seq<Event>, h: Handle)
    requires h in Run(events).stories && h in Run(events).wires && Run(events).wires[h].shutdowns > 0
    ensures var w, v := Run(events), Run(events + more);
      h in v.stories && v.stories[h] == w.stories[h] && h in v.wires && v.wires[h] == w.wires[h] && !Live(v, h)
    decreases |more|
  {
    hide Next;
    RunKeeps(events);
    InvConserved(Run(events), h);
    if more == [] {
      assert events + more == events;
    } else {
      var init, last := more[..|more| - 1], more[|more| - 1];
      ShutdownIsFinal(events, init, h);
      assert (events + more)[..|events + more| - 1] == events + init;
      RunKeeps(events + init);
      NobodyStays(Run(events + init), last, h);
    }
  }

  lemma NobodyStays(w: World, e: Event, h: Handle)
    requires Inv(w) && h in w.stories && w.stories[h].owner == Nobody
    ensures var v := Next(w, e);
      h in v.stories && v.stories[h] == w.stories[h] && !Live(v, h)
      && h in w.wires && h in v.wires && v.wires[h] == w.wires[h]
  {
    InvConserved(w, h);
    if Enabled(w, e) {
      match e
      case Insert(_, _) =>
      case Write(id, _, _) => if id in w.records { InvConserved(w, w.current[id]); }
      case Remove(id, _) => if id in w.records { InvConserved(w, w.current[id]); }
      case Section(t) => InvConserved(w, w.loops[t].w);
      case Send(t, _) => InvConserved(w, w.loops[t].w);
      case SendFails(t, _) => InvConserved(w, w.loops[t].w);
      case Shutdown(t) => InvConserved(w, w.loops[t].w);
      case Close(t) => InvConserved(w, w.closers[t].w);
    }
  }

  /** When no task is left, everything accepted has been written, but for what failed
      writes lost, and exactly the removed write halves have been shut down, once. */
  lemma Quiescent(events: seq<Event>, h: Handle)
    requires TaleOf(events, h).id.Some?
    requires Run(events).loops == map[] && Run(events).closers == map[]
    ensures var w, tale := Run(events), TaleOf(events, h);
      && h in w.wires
      && Total(tale.pieces) == Flat(tale.accepted) && w.wires[h].written == Output(tale.pieces)
      && (Clean(tale.pieces) ==> w.wires[h].written == Flat(tale.accepted))
      && w.wires[h].shutdowns == (if tale.removed then 1 else 0)
  {
    hide TaleOf, Total, Output;
    RunKeeps(events);
    StoryFromEvents(events, h);
    InvConserved(Run(events), h);
    if Clean(TaleOf(events, h).pieces) { CleanOutput(TaleOf(events, h).pieces); }
  }

  // ----------------------------------------------------------- tasks come to an end

  function Size(bufs: seq<Bytes>): nat
  {
    if bufs == [] then 0 else |bufs[0]| + 1 + Size(bufs[1..])
  }

  /** The steps the task that owns h can still take. */
  function Work(w: World, h: Handle): nat
    requires h in w.stories
  {
    match w.stories[h].owner
    case Record => 0
    case Nobody => 0
    case CloserTask(_) => 1
    case LoopTask(t) =>
      if t in w.loops && w.loops[t].phase == Closing then 1
      else 2 + Size(InHand(w, h)) + if Queued(w, h) == [] then 0 else 1 + Size(Queued(w, h))
  }

  /** The write half a task step is about; none for a step of a caller. */
  function TaskHandle(w: World, e: Event): Option<Handle>
  {
    match e
    case Section(t) => if t in w.loops then Some(w.loops[t].w) else None
    case Send(t, _) => if t in w.loops then Some(w.loops[t].w) else None
    case SendFails(t, _) => if t in w.loops then Some(w.loops[t].w) else None
    case Shutdown(t) => if t in w.loops then Some(w.loops[t].w) else None
    case Close(t) => if t in w.closers then Some(w.closers[t].w) else None
    case _ => None
  }

  lemma OwnWorkFalls(w: World, e: Event, h: Handle)
    requires Inv(w) && Enabled(w, e) && TaskHandle(w, e) == Some(h)
    ensures h in w.stories && h in Next(w, e).stories && Work(Next(w, e), h) < Work(w, h)
  {
    assert h in w.stories;
    InvConserved(w, h);
    match e
    case Section(t) =>
      assert w.stories[h].owner == LoopTask(t);
    case Send(t, n) =>
      var items := w.loops[t].items;
      assert ([items[0][n..]] + items[1..])[1..] == items[1..];
    case SendFails(t, n) =>
    case Shutdown(t) =>
    case Close(t) =>
  }

  lemma TaskKnown(w: World, e: Event)
    requires Inv(w) && TaskHandle(w, e).Some?
    ensures TaskHandle(w, e).value in w.stories
    ensures e.Section? ==> w.stories[TaskHandle(w, e).value].owner == LoopTask(e.loop)
  {
  }

  lemma OtherWorkStays(w: World, e: Event, h: Handle)
    requires Inv(w) && Enabled(w, e) && TaskHandle(w, e).Some? && TaskHandle(w, e) != Some(h) && h in w.stories
    ensures h in Next(w, e).stories && Work(Next(w, e), h) == Work(w, h)
  {
    hide Inv, Flat, Conserved;
    TaskKnown(w, e);
    InvConserved(w, TaskHandle(w, e).value);
    InvConserved(w, h);
    match e
    case Section(t) =>
    case Send(t, n) =>
    case SendFails(t, n) =>
    case Shutdown(t) =>
    case Close(t) =>
  }

  /** Each step of a task uses up some of the work of its write half and adds none to
      another, so tasks come to an end once the callers are silent. */
  lemma TasksEnd(w: World, e: Event, h: Handle)
    requires Inv(w) && Enabled(w, e) && TaskHandle(w, e).Some? && h in w.stories
    ensures h in Next(w, e).stories
    ensures TaskHandle(w, e) == Some(h) ==> Work(Next(w, e), h) < Work(w, h)
    ensures TaskHandle(w, e) != Some(h) ==> Work(Next(w, e), h) == Work(w, h)
  {
    hide Inv, Next, Enabled, Work;
    if TaskHandle(w, e) == Some(h) { OwnWorkFalls(w, e, h); } else { OtherWorkStays(w, e, h); }
  }

  /** A task that is there can take a step, and each write may fail instead. */
  lemma TasksCanStep(w: World, h: Handle)
    requires Inv(w) && h in w.stories && Work(w, h) > 0
    ensures exists e :: Enabled(w, e) && TaskHandle(w, e) == Some(h)
    ensures forall t, n :: Enabled(w, Send(t, n)) ==> Enabled(w, SendFails(t, n))
  {
    InvConserved(w, h);
    match w.stories[h].owner
    case CloserTask(t) => assert Enabled(w, Close(t)) && TaskHandle(w, Close(t)) == Some(h);
    case LoopTask(t) =>
      var l := w.loops[t];
      var e := if l.phase == Locking then Section(t) else if l.phase == Closing then Shutdown(t)
               else Send(t, |l.items[0]|);
      assert Enabled(w, e) && TaskHandle(w, e) == Some(h);
  }

  // ----------------------------------------------- when an id may be used again

  /** Somebody holds the write half h. */
  ghost predicate Held(w: World, h: Handle)
  {
    || (exists id :: id in w.records && w.records[id].write == Some(h))
    || (exists t :: t in w.loops && w.loops[t].w == h)
    || (exists t :: t in w.closers && w.closers[t].w == h)
  }

  /** Inserting a new write half keeps all earlier ones owned, and everything else
      right, exactly when its id has no record at that time; ids of removed streams may
      be used again, even while their write halves are being shut down. */
  lemma ReuseIsSafe(w: World, id: StreamId, stream: Handle)
    requires Inv(w) && stream !in w.wires
    ensures (forall h :: h in w.stories ==> Owned(InsertStep(w, id, stream), h)) <==> id !in w.records
    ensures Inv(InsertStep(w, id, stream)) <==> id !in w.records
  {
    var v := InsertStep(w, id, stream);
    forall h | h in w.stories ensures h in v.stories && h != stream { InvConserved(w, h); }
    if id !in w.records {
      InsertKeeps(w, id, stream);
    } else {
      var h := w.current[id];
      assert Known(w, id) && w.stories[h].id == id;
      InvConserved(w, h);
      assert !Owned(v, h);
    }
  }

  /** Otherwise the write half of the record is lost: an idle one is held by nobody and
      never shut down, and beside a busy one the record takes in a second. */
  lemma ReuseLoses(w: World, id: StreamId, stream: Handle)
    requires Inv(w) && stream !in w.wires && id in w.records
    ensures id in w.current && w.current[id] in w.wires
    ensures var v, h := InsertStep(w, id, stream), w.current[id];
      if w.records[id].write.Some? then !Held(v, h) && v.wires[h].shutdowns == 0
      else (exists t :: t in v.loops && v.loops[t].id == id && v.loops[t].w == h && v.loops[t].phase != Closing)
           && v.records[id].write == Some(stream)
  {
    var v, h := InsertStep(w, id, stream), w.current[id];
    assert Known(w, id) && w.stories[h].id == id;
    InvConserved(w, h);
    if w.records[id].write.Some? {
      forall i | i in v.records ensures v.records[i].write != Some(h) {
        if i != id {
          assert Known(w, i) && w.stories[w.current[i]].id == i;
          InvConserved(w, w.current[i]);
        }
      }
    }
  }

  /** Inserting under an id whose loop is still at work: the loop finds the new
      record empty and puts its own write half there. The second write half is
      gone without a shutdown, and the buffer queued before is never written. */
  lemma ReusedIdLosesStream()
    ensures var w := SectionStep(InsertStep(WriteStep(InsertStep(Start, 1, 10), 1, [7], 0), 1, 11), 0);
      && w.records == map[1 := StreamRec(Some(10), [], false)]
      && w.loops == map[] && w.closers == map[]
      && w.wires[11] == Wire([], 0) && w.wires[10] == Wire([], 0)
  {
    var b := WriteStep(InsertStep(Start, 1, 10), 1, [7], 0);
    assert b.records[1] == StreamRec(None, [[7]], false) && b.loops == map[0 := Loop(1, 10, [], Locking)];
    var c := InsertStep(b, 1, 11);
    assert c.records[1] == StreamRec(Some(11), [], false);
    assert SectionStep(c, 0).records == map[1 := StreamRec(Some(10), [], false)];
  }
}
