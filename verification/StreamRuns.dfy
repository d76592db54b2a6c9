/** Any interleaving of the callers of `Streams` and of the write loops they
    spawn, one critical section, one write or one shutdown at a time. */
module StreamRuns {
  import opened Options
  import opened Streams

  type TaskId = int

  /** Where a write loop is: before its critical section, writing a batch, or
      about to shut its write half down. */
  datatype Phase = Locking | Writing | Closing

  datatype Loop = Loop(id: StreamId, w: Handle, items: seq<Bytes>, phase: Phase)

  /** A caller of `remove` that holds a write half to shut down. */
  datatype Closer = Closer(id: StreamId, w: Handle)

  /** The far side of a write half. */
  datatype Wire = Wire(written: Bytes, shutdowns: int)

  datatype Owner = Record | LoopTask(task: TaskId) | CloserTask(closer: TaskId) | Nobody

  /** What became of accepted bytes: they were written, or were lost to a failed write. */
  datatype Piece = Out(bytes: Bytes) | Lost(bytes: Bytes)

  /** What is remembered about a write half: the id it was inserted under, who owns
      it, the buffers accepted for it in call order, what became of them, and whether
      `remove` was called. */
  datatype Story = Story(id: StreamId, owner: Owner, accepted: seq<Bytes>, pieces: seq<Piece>, removed: bool)

  /** `current` is the write half inserted last under an id. */
  datatype World = World(
    records: StreamMap,
    loops: map<TaskId, Loop>,
    closers: map<TaskId, Closer>,
    wires: map<Handle, Wire>,
    stories: map<Handle, Story>,
    current: map<StreamId, Handle>)

  const Start := World(map[], map[], map[], map[], map[], map[])

  datatype Event =
    | Insert(id: StreamId, stream: Handle)
    | Write(id: StreamId, buf: Bytes, task: TaskId)
    | Remove(id: StreamId, task: TaskId)
    | Section(loop: TaskId)
    | Send(loop: TaskId, count: int)
    | SendFails(loop: TaskId, count: int)
    | Shutdown(loop: TaskId)
    | Close(closer: TaskId)

  function Flat(bufs: seq<Bytes>): Bytes
  {
    if bufs == [] then [] else bufs[0] + Flat(bufs[1..])
  }

  /** All bytes of the pieces, and those that were written. */
  function Total(pieces: seq<Piece>): Bytes
  {
    if pieces == [] then [] else Total(pieces[..|pieces| - 1]) + pieces[|pieces| - 1].bytes
  }

  function Output(pieces: seq<Piece>): Bytes
  {
    if pieces == [] then []
    else Output(pieces[..|pieces| - 1]) + if pieces[|pieces| - 1].Out? then pieces[|pieces| - 1].bytes else []
  }

  /** A write half is inserted once, under an id that has no record then; new tasks
      get new ids. */
  predicate Enabled(w: World, e: Event)
  {
    match e
    case Insert(id, stream) => id !in w.records && stream !in w.wires
    case Write(_, _, task) => task !in w.loops
    case Remove(_, task) => task !in w.closers
    case Section(t) => t in w.loops && w.loops[t].phase == Locking
    case Send(t, n) =>
      t in w.loops && w.loops[t].phase == Writing && w.loops[t].items != [] && w.loops[t].w in w.wires
      && 0 <= n <= |w.loops[t].items[0]| && (n == 0 ==> w.loops[t].items[0] == [])
    case SendFails(t, n) =>
      t in w.loops && w.loops[t].phase == Writing && w.loops[t].items != [] && w.loops[t].w in w.wires
      && 0 <= n <= |w.loops[t].items[0]|
    case Shutdown(t) => t in w.loops && w.loops[t].phase == Closing && w.loops[t].w in w.wires
    case Close(t) => t in w.closers && w.closers[t].w in w.wires
  }

  function Emit(wire: Wire, bytes: Bytes): Wire
  {
    wire.(written := wire.written + bytes)
  }

  function Shut(wire: Wire): Wire
  {
    wire.(shutdowns := wire.shutdowns + 1)
  }

  /** Who owns the write half h from now on, in the stories. */
  function Handed(stories: map<Handle, Story>, h: Handle, owner: Owner): map<Handle, Story>
  {
    if h in stories then stories[h := stories[h].(owner := owner)] else stories
  }

  /** The write half inserted under id has a record. */
  predicate Known(w: World, id: StreamId)
  {
    id in w.records && id in w.current && w.current[id] in w.stories
  }

  /** More has become of the bytes of h. */
  function Told(stories: map<Handle, Story>, h: Handle, pieces: seq<Piece>): map<Handle, Story>
  {
    if h in stories then stories[h := stories[h].(pieces := stories[h].pieces + pieces)] else stories
  }

  function InsertStep(w: World, id: StreamId, stream: Handle): World
  {
    w.(records := w.records[id := StreamRec(Some(stream), [], false)],
       wires := w.wires[stream := Wire([], 0)],
       stories := w.stories[stream := Story(id, Record, [], [], false)],
       current := w.current[id := stream])
  }

  function Accepting(w: World, id: StreamId, buf: Bytes): map<Handle, Story>
  {
    if Known(w, id) then
      var h := w.current[id];
      w.stories[h := w.stories[h].(accepted := w.stories[h].accepted + [buf])]
    else w.stories
  }

  function WriteStep(w: World, id: StreamId, buf: Bytes, task: TaskId): World
  {
    var (records, spawn) := Written(w.records, id, buf);
    var stories := Accepting(w, id, buf);
    match spawn
    case None => w.(records := records, stories := stories)
    case Some(h) =>
      w.(records := records, loops := w.loops[task := Loop(id, h, [], Locking)],
         stories := Handed(stories, h, LoopTask(task)))
  }

  function Removing(w: World, id: StreamId): map<Handle, Story>
  {
    if Known(w, id) then w.stories[w.current[id] := w.stories[w.current[id]].(removed := true)] else w.stories
  }

  function RemoveStep(w: World, id: StreamId, task: TaskId): World
  {
    var (records, taken) := Removed(w.records, id);
    var stories := Removing(w, id);
    match taken
    case None => w.(records := records, stories := stories)
    case Some(h) =>
      w.(records := records, closers := w.closers[task := Closer(id, h)],
         stories := Handed(stories, h, CloserTask(task)))
  }

  function SectionStep(w: World, t: TaskId): World
    requires t in w.loops
  {
    var l := w.loops[t];
    var (records, verdict) := Looped(w.records, l.id, l.w);
    match verdict
    case Batch(items) => w.(records := records, loops := w.loops[t := l.(items := items, phase := Writing)])
    case ShutDown => w.(records := records, loops := w.loops[t := l.(phase := Closing)])
    case GiveBack => w.(records := records, loops := w.loops - {t}, stories := Handed(w.stories, l.w, Record))
  }

  /** Part of the first buffer goes out; a batch that is used up ends the round. */
  function SendStep(w: World, t: TaskId, n: int): World
    requires t in w.loops && w.loops[t].items != [] && w.loops[t].w in w.wires && 0 <= n <= |w.loops[t].items[0]|
  {
    var l := w.loops[t];
    var left := l.items[0][n..];
    var items := if left == [] then l.items[1..] else [left] + l.items[1..];
    w.(wires := w.wires[l.w := Emit(w.wires[l.w], l.items[0][..n])],
       loops := w.loops[t := l.(items := items, phase := if items == [] then Locking else Writing)],
       stories := Told(w.stories, l.w, [Out(l.items[0][..n])]))
  }

  /** Part of the first buffer goes out, then the write fails: the batch is dropped. */
  function FailStep(w: World, t: TaskId, n: int): World
    requires t in w.loops && w.loops[t].items != [] && w.loops[t].w in w.wires && 0 <= n <= |w.loops[t].items[0]|
  {
    var l := w.loops[t];
    w.(wires := w.wires[l.w := Emit(w.wires[l.w], l.items[0][..n])],
       loops := w.loops[t := l.(items := [], phase := Locking)],
       stories := Told(w.stories, l.w, [Out(l.items[0][..n]), Lost(l.items[0][n..] + Flat(l.items[1..]))]))
  }

  function ShutdownStep(w: World, t: TaskId): World
    requires t in w.loops && w.loops[t].w in w.wires
  {
    var l := w.loops[t];
    w.(wires := w.wires[l.w := Shut(w.wires[l.w])], loops := w.loops - {t}, stories := Handed(w.stories, l.w, Nobody))
  }

  function CloseStep(w: World, t: TaskId): World
    requires t in w.closers && w.closers[t].w in w.wires
  {
    var c := w.closers[t];
    w.(wires := w.wires[c.w := Shut(w.wires[c.w])], closers := w.closers - {t},
       stories := Handed(w.stories, c.w, Nobody))
  }

  /** An event that is not enabled does not happen. */
  function Next(w: World, e: Event): World
  {
    if !Enabled(w, e) then w else
    match e
    case Insert(id, stream) => InsertStep(w, id, stream)
    case Write(id, buf, task) => WriteStep(w, id, buf, task)
    case Remove(id, task) => RemoveStep(w, id, task)
    case Section(t) => SectionStep(w, t)
    case Send(t, n) => SendStep(w, t, n)
    case SendFails(t, n) => FailStep(w, t, n)
    case Shutdown(t) => ShutdownStep(w, t)
    case Close(t) => CloseStep(w, t)
  }

  function Run(events: seq<Event>): World
  {
    if events == [] then Start else Next(Run(events[..|events| - 1]), events[|events| - 1])
  }

  // ---------------------------------------------------------------- invariant

  /** The record of its id is that of h. */
  predicate Live(w: World, h: Handle)
    requires h in w.stories
  {
    var id := w.stories[h].id;
    id in w.records && id in w.current && w.current[id] == h
  }

  /** The owner named in the story of h is the owner, and what it holds fits. */
  ghost predicate Owned(w: World, h: Handle)
    requires h in w.stories
  {
    var s := w.stories[h];
    match s.owner
    case Record => Live(w, h) && w.records[s.id] == StreamRec(Some(h), [], false) && !s.removed
    case LoopTask(t) =>
      && t in w.loops && w.loops[t].id == s.id && w.loops[t].w == h
      && (w.loops[t].phase == Writing <==> w.loops[t].items != [])
      && (if w.loops[t].phase == Closing then !Live(w, h) && s.removed
          else Live(w, h) && w.records[s.id].write == None && w.records[s.id].ended == s.removed)
    case CloserTask(t) => t in w.closers && w.closers[t] == Closer(s.id, h) && !Live(w, h) && s.removed
    case Nobody => !Live(w, h) && s.removed
  }

  /** What the owner of h has taken off the queue and not written yet. */
  function InHand(w: World, h: Handle): seq<Bytes>
    requires h in w.stories
  {
    var o := w.stories[h].owner;
    if o.LoopTask? && o.task in w.loops then w.loops[o.task].items else []
  }

  function Queued(w: World, h: Handle): seq<Bytes>
    requires h in w.stories
  {
    if Live(w, h) then w.records[w.stories[h].id].q else []
  }

  /** What has been written or lost, what is in hand and what is queued is what was
      accepted; shutdown happens when nobody owns it any more. */
  ghost predicate Conserved(w: World, h: Handle)
    requires h in w.stories
  {
    var s := w.stories[h];
    && h in w.wires
    && Total(s.pieces) + Flat(InHand(w, h)) + Flat(Queued(w, h)) == Flat(s.accepted)
    && w.wires[h].written == Output(s.pieces)
    && w.wires[h].shutdowns == if s.owner == Nobody then 1 else 0
  }

  ghost predicate Inv(w: World)
  {
    && (forall id :: id in w.records ==> Known(w, id) && w.stories[w.current[id]].id == id)
    && (forall t :: t in w.loops ==> w.loops[t].w in w.stories && w.stories[w.loops[t].w].owner == LoopTask(t))
    && (forall t :: t in w.closers ==> w.closers[t].w in w.stories && w.stories[w.closers[t].w].owner == CloserTask(t))
    && (forall h :: h in w.stories ==> Owned(w, h) && Conserved(w, h))
  }

  // ------------------------------------------------------- every step keeps it

  lemma {:induction false} FlatAppend(a: seq<Bytes>, b: seq<Bytes>)
    ensures Flat(a + b) == Flat(a) + Flat(b)
  {
    if a == [] {
      assert a + b == b;
    } else {
      assert (a + b)[1..] == a[1..] + b;
      FlatAppend(a[1..], b);
    }
  }

  lemma InsertKeeps(w: World, id: StreamId, stream: Handle)
    requires Inv(w) && id !in w.records && stream !in w.wires
    ensures Inv(InsertStep(w, id, stream))
  {
    var v := InsertStep(w, id, stream);
    forall h | h in v.stories ensures Owned(v, h) && Conserved(v, h) {
      if h != stream { InvConserved(w, h); }
    }
  }

  /** A write half that a step does not touch stays as it was. */
  lemma Untouched(w: World, v: World, h: Handle)
    requires h in w.stories && Owned(w, h) && Conserved(w, h)
    requires h in v.stories && v.stories[h] == w.stories[h] && h in v.wires && v.wires[h] == w.wires[h]
    requires Live(v, h) <==> Live(w, h)
    requires Live(w, h) ==> v.records[w.stories[h].id] == w.records[w.stories[h].id]
    requires forall t :: t in w.loops && w.loops[t].w == h ==> t in v.loops && v.loops[t] == w.loops[t]
    requires forall t :: t in w.closers && w.closers[t].w == h ==> t in v.closers && v.closers[t] == w.closers[t]
    ensures Owned(v, h) && Conserved(v, h)
  {
  }

  lemma InvConserved(w: World, h: Handle)
    requires Inv(w) && h in w.stories
    ensures Owned(w, h) && Conserved(w, h)
  {
  }

  /** One more accepted buffer at the end of the queue. */
  lemma QueueTally(written: Bytes, hand: Bytes, q: seq<Bytes>, accepted: seq<Bytes>, buf: Bytes)
    requires written + hand + Flat(q) == Flat(accepted)
    ensures written + hand + Flat(q + [buf]) == Flat(accepted + [buf])
  {
    hide Flat;
    FlatAppend(q, [buf]);
    FlatAppend(accepted, [buf]);
    FlatOne(buf);
    Regroup(written + hand, Flat(q), buf);
  }

  lemma FlatOne(buf: Bytes)
    ensures Flat([buf]) == buf
  {
  }

  lemma Regroup(a: Bytes, b: Bytes, c: Bytes)
    ensures a + (b + c) == a + b + c
  {
  }

  /** The stream written to: its buffer is queued, and an idle one gets a loop. */
  lemma WriteMine(w: World, id: StreamId, buf: Bytes, task: TaskId)
    requires Inv(w) && task !in w.loops && id in w.records
    ensures var v, h := WriteStep(w, id, buf, task), w.current[id]; h in v.stories && Owned(v, h) && Conserved(v, h)
  {
    assert Known(w, id) && w.stories[w.current[id]].id == id;
    hide Inv, Flat, Total, Output;
    var h := w.current[id];
    InvConserved(w, h);
    var s := w.stories[h];
    QueueTally(Total(s.pieces), Flat(InHand(w, h)), w.records[id].q, s.accepted, buf);
  }

  lemma WriteKeeps(w: World, id: StreamId, buf: Bytes, task: TaskId)
    requires Inv(w) && task !in w.loops
    ensures Inv(WriteStep(w, id, buf, task))
  {
    hide Conserved, Flat, Total, Output;
    var v := WriteStep(w, id, buf, task);
    if id in w.records {
      InvConserved(w, w.current[id]);
      WriteMine(w, id, buf, task);
      forall h | h in v.stories ensures Owned(v, h) && Conserved(v, h) {
        if h != w.current[id] { InvConserved(w, h); ConservedWire(w, h); Untouched(w, v, h); }
      }
    }
  }

  lemma ConservedWire(w: World, h: Handle)
    requires h in w.stories && Conserved(w, h)
    ensures h in w.wires
  {
  }

  lemma RemoveMine(w: World, id: StreamId, task: TaskId)
    requires Inv(w) && task !in w.closers && id in w.records
    ensures var v, h := RemoveStep(w, id, task), w.current[id]; h in v.stories && Owned(v, h) && Conserved(v, h)
  {
    assert Known(w, id) && w.stories[w.current[id]].id == id;
    InvConserved(w, w.current[id]);
    hide Inv, Flat;
  }

  lemma RemoveKeeps(w: World, id: StreamId, task: TaskId)
    requires Inv(w) && task !in w.closers
    ensures Inv(RemoveStep(w, id, task))
  {
    hide Conserved, Flat, Total, Output;
    var v := RemoveStep(w, id, task);
    if id in w.records {
      InvConserved(w, w.current[id]);
      RemoveMine(w, id, task);
      forall h | h in v.stories ensures Owned(v, h) && Conserved(v, h) {
        if h != w.current[id] { InvConserved(w, h); ConservedWire(w, h); Untouched(w, v, h); }
      }
    }
  }

  /** The write half whose loop enters its critical section has a record. */
  lemma SectionMine(w: World, t: TaskId)
    requires Inv(w) && Enabled(w, Section(t))
    ensures w.loops[t].id in w.records && w.loops[t].id in w.current && w.current[w.loops[t].id] == w.loops[t].w
    ensures var v, h := SectionStep(w, t), w.loops[t].w; h in v.stories && Owned(v, h) && Conserved(v, h)
  {
    InvConserved(w, w.loops[t].w);
  }

  lemma SectionKeeps(w: World, t: TaskId)
    requires Inv(w) && Enabled(w, Section(t))
    ensures Inv(SectionStep(w, t))
  {
    hide Conserved, Flat, Total, Output;
    var v, mine := SectionStep(w, t), w.loops[t].w;
    InvConserved(w, mine);
    SectionMine(w, t);
    forall h | h in v.stories ensures Owned(v, h) && Conserved(v, h) {
      if h != mine { InvConserved(w, h); ConservedWire(w, h); Untouched(w, v, h); }
    }
  }

  lemma SendKeeps(w: World, t: TaskId, n: int)
    requires Inv(w) && Enabled(w, Send(t, n))
    ensures Inv(SendStep(w, t, n))
  {
    hide Total, Output;
    var v, l := SendStep(w, t, n), w.loops[t];
    InvConserved(w, l.w);
    assert l.items == [l.items[0]] + l.items[1..];
    assert l.items[0] == l.items[0][..n] + l.items[0][n..];
    SendTally(Total(w.stories[l.w].pieces), l.items, n, Flat(Queued(w, l.w)));
    OnePiece(w.stories[l.w].pieces, Out(l.items[0][..n]));
    forall h | h in v.stories ensures Owned(v, h) && Conserved(v, h) {
      if h != l.w { InvConserved(w, h); Untouched(w, v, h); }
    }
  }

  lemma OnePiece(pieces: seq<Piece>, p: Piece)
    ensures Total(pieces + [p]) == Total(pieces) + p.bytes
    ensures Output(pieces + [p]) == Output(pieces) + if p.Out? then p.bytes else []
  {
    assert (pieces + [p])[..|pieces|] == pieces;
  }

  /** Moving n bytes from the batch to the wire changes nothing in total. */
  lemma SendTally(gone: Bytes, items: seq<Bytes>, n: int, rest: Bytes)
    requires items != [] && 0 <= n <= |items[0]|
    ensures var left := items[0][n..];
      var items' := if left == [] then items[1..] else [left] + items[1..];
      (gone + items[0][..n]) + Flat(items') + rest == gone + Flat(items) + rest
  {
    var left := items[0][n..];
    assert items[0] == items[0][..n] + left;
    assert ([left] + items[1..])[1..] == items[1..];
  }

  lemma FlatFirst(items: seq<Bytes>)
    requires items != []
    ensures Flat(items) == items[0] + Flat(items[1..])
  {
  }

  lemma TwoPieces(pieces: seq<Piece>, out: Bytes, lost: Bytes)
    ensures Total(pieces + [Out(out), Lost(lost)]) == Total(pieces) + out + lost
    ensures Output(pieces + [Out(out), Lost(lost)]) == Output(pieces) + out
  {
    hide Total, Output;
    OnePiece(pieces, Out(out));
    OnePiece(pieces + [Out(out)], Lost(lost));
    assert pieces + [Out(out), Lost(lost)] == pieces + [Out(out)] + [Lost(lost)];
  }

  lemma Regroup4(a: Bytes, b: Bytes, c: Bytes, d: Bytes)
    ensures a + b + (c + d) == a + ((b + c) + d)
  {
  }

  /** A failed write settles the whole batch: part of it is out, the rest is lost. */
  lemma FailTally(pieces: seq<Piece>, items: seq<Bytes>, n: int)
    requires items != [] && 0 <= n <= |items[0]|
    ensures var more := [Out(items[0][..n]), Lost(items[0][n..] + Flat(items[1..]))];
      && Total(pieces + more) == Total(pieces) + Flat(items)
      && Output(pieces + more) == Output(pieces) + items[0][..n]
  {
    FlatFirst(items);
    hide Flat, Total, Output;
    var out, lost, rest := items[0][..n], items[0][n..], Flat(items[1..]);
    assert items[0] == out + lost;
    TwoPieces(pieces, out, lost + rest);
    Regroup4(Total(pieces), out, lost, rest);
  }

  lemma FailKeeps(w: World, t: TaskId, n: int)
    requires Inv(w) && Enabled(w, SendFails(t, n))
    ensures Inv(FailStep(w, t, n))
  {
    hide Total, Output;
    var v, l := FailStep(w, t, n), w.loops[t];
    InvConserved(w, l.w);
    FailTally(w.stories[l.w].pieces, l.items, n);
    forall h | h in v.stories ensures Owned(v, h) && Conserved(v, h) {
      if h != l.w { InvConserved(w, h); Untouched(w, v, h); }
    }
  }

  lemma ShutdownKeeps(w: World, t: TaskId)
    requires Inv(w) && Enabled(w, Shutdown(t))
    ensures Inv(ShutdownStep(w, t))
  {
    hide Flat, Total, Output;
    var v, l := ShutdownStep(w, t), w.loops[t];
    InvConserved(w, l.w);
    forall h | h in v.stories ensures Owned(v, h) && Conserved(v, h) {
      if h != l.w { InvConserved(w, h); Untouched(w, v, h); }
    }
  }

  lemma CloseKeeps(w: World, t: TaskId)
    requires Inv(w) && Enabled(w, Close(t))
    ensures Inv(CloseStep(w, t))
  {
    hide Flat, Total, Output;
    var v, c := CloseStep(w, t), w.closers[t];
    InvConserved(w, c.w);
    forall h | h in v.stories ensures Owned(v, h) && Conserved(v, h) {
      if h != c.w { InvConserved(w, h); Untouched(w, v, h); }
    }
  }

  lemma NextKeeps(w: World, e: Event)
    requires Inv(w)
    ensures Inv(Next(w, e))
  {
    hide Inv;
    if Enabled(w, e) {
      match e
      case Insert(id, stream) => InsertKeeps(w, id, stream);
      case Write(id, buf, task) => WriteKeeps(w, id, buf, task);
      case Remove(id, task) => RemoveKeeps(w, id, task);
      case Section(t) => SectionKeeps(w, t);
      case Send(t, n) => SendKeeps(w, t, n);
      case SendFails(t, n) => FailKeeps(w, t, n);
      case Shutdown(t) => ShutdownKeeps(w, t);
      case Close(t) => CloseKeeps(w, t);
    }
  }

  /** The invariant holds after every run. */
  lemma {:induction false} RunKeeps(events: seq<Event>)
    ensures Inv(Run(events))
    decreases |events|
  {
    if events != [] {
      RunKeeps(events[..|events| - 1]);
      NextKeeps(Run(events[..|events| - 1]), events[|events| - 1]);
    }
  }
}
