/** What `register_stream` and the reader tasks it starts put on the channel, for
    any interleaving of registrations, readers and a channel that may close; next to
    it, a receiver that follows one stream and notices every breach of order. */
module OutgoingStreams {
  type StreamId = int
  type Bytes = seq<int>

  const BUFFER_SIZE := 4096

  datatype Message =
    | Started(request: int, streams: seq<StreamId>)
    | Data(stream: StreamId, segment: Bytes)
    | Ended(stream: StreamId)

  // -------------------------------------------------------------- the receiver

  /** What is known of one stream: whether it was announced, what came, whether it
      has ended, and whether some message came out of turn. */
  datatype View = View(started: bool, bytes: Bytes, ended: bool, broken: bool)

  function Listen(v: View, m: Message, id: StreamId): View
  {
    match m
    case Started(_, ids) =>
      if id !in ids then v else v.(started := true, broken := v.broken || v.started)
    case Data(i, segment) =>
      if i != id then v
      else v.(bytes := v.bytes + segment,
              broken := v.broken || !v.started || v.ended || !(1 <= |segment| <= BUFFER_SIZE))
    case Ended(i) =>
      if i != id then v else v.(ended := true, broken := v.broken || !v.started || v.ended)
  }

  function ViewOf(sent: seq<Message>, id: StreamId): View
  {
    if sent == [] then View(false, [], false, false)
    else Listen(ViewOf(sent[..|sent| - 1], id), sent[|sent| - 1], id)
  }

  lemma ViewAppend(sent: seq<Message>, m: Message, id: StreamId)
    ensures ViewOf(sent + [m], id) == Listen(ViewOf(sent, id), m, id)
  {
    assert (sent + [m])[..|sent|] == sent;
  }

  // ---------------------------------------------------------------- the senders

  /** A reader task: not started, at `read`, about to send a segment, about to send
      the end, returned after that, or returned because a send failed. */
  datatype Phase = Waiting | Reading | Sending(segment: Bytes) | Ending | Done | GivenUp(lost: Bytes)

  /** `read` is all that was read from the stream. */
  datatype Reader = Reader(phase: Phase, read: Bytes)

  datatype World = World(sent: seq<Message>, open: bool, used: set<StreamId>, readers: map<StreamId, Reader>)

  const Start := World([], true, {}, map[])

  datatype Event =
    | Register(request: int, streams: seq<StreamId>)
    | Spawn(stream: StreamId)
    | Read(stream: StreamId, data: Bytes)
    | ReadStops(stream: StreamId)
    | Send(stream: StreamId)
    | Close

  predicate Enabled(w: World, e: Event)
  {
    match e
    case Register(_, ids) => forall id :: id in ids ==> id !in w.used
    case Spawn(id) => id in w.readers && w.readers[id].phase.Waiting?
    case Read(id, data) => id in w.readers && w.readers[id].phase.Reading? && 1 <= |data| <= BUFFER_SIZE
    case ReadStops(id) => id in w.readers && w.readers[id].phase.Reading?
    case Send(id) => id in w.readers && (w.readers[id].phase.Sending? || w.readers[id].phase.Ending?)
    case Close => true
  }

  function Moved(w: World, id: StreamId, phase: Phase): World
    requires id in w.readers
  {
    w.(readers := w.readers[id := w.readers[id].(phase := phase)])
  }

  function Next(w: World, e: Event): World
    requires Enabled(w, e)
  {
    match e
    case Register(request, ids) =>
      var used := w.used + set id | id in ids;
      if w.open then
        w.(sent := w.sent + [Started(request, ids)], used := used,
           readers := w.readers + map id | id in ids :: Reader(Waiting, []))
      else w.(used := used)
    case Spawn(id) => Moved(w, id, Reading)
    case Read(id, data) => w.(readers := w.readers[id := Reader(Sending(data), w.readers[id].read + data)])
    case ReadStops(id) => Moved(w, id, Ending)
    case Send(id) =>
      if w.readers[id].phase.Ending? then
        var sent := if w.open then w.sent + [Ended(id)] else w.sent;
        Moved(w, id, Done).(sent := sent)
      else if w.open then Moved(w, id, Reading).(sent := w.sent + [Data(id, w.readers[id].phase.segment)])
      else Moved(w, id, GivenUp(w.readers[id].phase.segment))
    case Close => w.(open := false)
  }

  /** What has been read and has not been sent. */
  function Unsent(phase: Phase): Bytes
  {
    match phase
    case Sending(segment) => segment
    case GivenUp(lost) => lost
    case _ => []
  }

  /** What the receiver of a registered stream has seen. */
  ghost predicate Followed(w: World, id: StreamId)
    requires id in w.readers
  {
    var v, r := ViewOf(w.sent, id), w.readers[id];
    && v.started && !v.broken && v.bytes + Unsent(r.phase) == r.read
    && (v.ended ==> r.phase.Done?) && (w.open && r.phase.Done? ==> v.ended)
    && (r.phase.Sending? ==> 1 <= |r.phase.segment| <= BUFFER_SIZE) && (r.phase.GivenUp? ==> !w.open)
  }

  ghost predicate Inv(w: World)
  {
    && (forall id :: id in w.readers ==> id in w.used && Followed(w, id))
    && (forall id :: id !in w.readers ==> ViewOf(w.sent, id) == View(false, [], false, false))
  }

  /** What a step means for one stream. */
  lemma StepFollowed(w: World, e: Event, id: StreamId)
    requires Inv(w) && Enabled(w, e)
    ensures var w' := Next(w, e);
      if id in w'.readers then id in w'.used && Followed(w', id)
      else ViewOf(w'.sent, id) == View(false, [], false, false)
  {
    hide ViewOf;
    assert id in w.readers ==> id in w.used && Followed(w, id);
    match e
    case Register(request, ids) => ViewAppend(w.sent, Started(request, ids), id);
    case Send(i) =>
      if w.readers[i].phase.Ending? {
        ViewAppend(w.sent, Ended(i), id);
      } else {
        ViewAppend(w.sent, Data(i, w.readers[i].phase.segment), id);
      }
    case _ =>
  }

  lemma StepKeeps(w: World, e: Event)
    requires Inv(w) && Enabled(w, e)
    ensures Inv(Next(w, e))
  {
    hide ViewOf, Followed, Next, Enabled;
    forall id ensures var w' := Next(w, e);
      if id in w'.readers then id in w'.used && Followed(w', id)
      else ViewOf(w'.sent, id) == View(false, [], false, false)
    {
      StepFollowed(w, e, id);
    }
  }

  /** Every event of es is enabled when its turn comes. */
  ghost predicate Possible(es: seq<Event>)
    decreases |es|, 0
  {
    es == [] || (Possible(Front(es)) && Enabled(Run(Front(es)), Last(es)))
  }

  function Run(es: seq<Event>): World
    requires Possible(es)
    decreases |es|, 1
  {
    if es == [] then Start else Next(Run(Front(es)), Last(es))
  }

  function Front<T>(es: seq<T>): seq<T>
    requires es != []
  {
    es[..|es| - 1]
  }

  function Last<T>(es: seq<T>): T
    requires es != []
  {
    es[|es| - 1]
  }

  lemma {:induction false} RunKeeps(es: seq<Event>)
    requires Possible(es)
    ensures Inv(Run(es))
    decreases |es|
  {
    if es != [] {
      RunKeeps(Front(es));
      StepKeeps(Run(Front(es)), Last(es));
    }
  }

  // ------------------------------------------------------- what the events say

  /** The stream was registered while the channel was open. */
  predicate Registered(es: seq<Event>, id: StreamId)
  {
    es != [] && (Registered(Front(es), id) || (Registers(Last(es), id) && Close !in Front(es)))
  }

  predicate Registers(e: Event, id: StreamId)
  {
    e.Register? && id in e.streams
  }

  /** What the reads of a stream gave, in order. */
  function BytesRead(es: seq<Event>, id: StreamId): Bytes
  {
    if es == [] then [] else BytesRead(Front(es), id) + Brought(Last(es), id)
  }

  function Brought(e: Event, id: StreamId): Bytes
  {
    match e
    case Read(i, data) => if i == id then data else []
    case _ => []
  }

  /** The registrations before the channel closed, as they should be announced. */
  function Registrations(es: seq<Event>): seq<Message>
  {
    if es == [] then []
    else Registrations(Front(es)) + if Close in Front(es) then [] else Announced(Last(es))
  }

  function Announced(e: Event): seq<Message>
  {
    match e
    case Register(request, ids) => [Started(request, ids)]
    case _ => []
  }

  function Announcements(sent: seq<Message>): seq<Message>
  {
    if sent == [] then []
    else Announcements(Front(sent)) + if Last(sent).Started? then [Last(sent)] else []
  }

  lemma AnnouncementsAppend(sent: seq<Message>, m: Message)
    ensures Announcements(sent + [m]) == Announcements(sent) + if m.Started? then [m] else []
  {
    assert (sent + [m])[..|sent|] == sent;
  }

  lemma OneMore(es: seq<Event>, e: Event)
    requires es != []
    ensures e in es <==> e in Front(es) || e == Last(es)
  {
    assert es == Front(es) + [Last(es)];
  }

  /** The state of the reader of id is what the events say of it. */
  ghost predicate Tells(es: seq<Event>, w: World, id: StreamId)
  {
    && (id in w.readers <==> Registered(es, id)) && (Registered(es, id) ==> id in w.used)
    && (id !in w.readers ==> BytesRead(es, id) == [] && Spawn(id) !in es && ReadStops(id) !in es)
    && (id in w.readers ==>
          && w.readers[id].read == BytesRead(es, id)
          && (w.readers[id].phase.Waiting? <==> Spawn(id) !in es)
          && (w.readers[id].phase.Ending? || w.readers[id].phase.Done? <==> ReadStops(id) in es))
  }

  /** What a step does to the reader of id. */
  lemma StepReader(w: World, e: Event, id: StreamId)
    requires Enabled(w, e) && (id in w.readers ==> id in w.used)
    ensures var w' := Next(w, e);
      && (id in w'.readers <==> id in w.readers || (Registers(e, id) && w.open))
      && (id in w'.readers ==> id in w'.used)
      && (id in w'.readers && id !in w.readers ==> w'.readers[id] == Reader(Waiting, []))
      && (id in w.readers ==>
            && w'.readers[id].read == w.readers[id].read + Brought(e, id)
            && (w'.readers[id].phase.Waiting? <==> w.readers[id].phase.Waiting? && e != Spawn(id))
            && (w'.readers[id].phase.Ending? || w'.readers[id].phase.Done? <==>
                  w.readers[id].phase.Ending? || w.readers[id].phase.Done? || e == ReadStops(id)))
      && (id !in w.readers ==> Brought(e, id) == [] && e != Spawn(id) && e != ReadStops(id))
  {
  }

  lemma StepTells(es: seq<Event>, id: StreamId)
    requires es != [] && Possible(es) && Tells(Front(es), Run(Front(es)), id)
    requires Run(Front(es)).open <==> Close !in Front(es)
    ensures Tells(es, Run(es), id)
  {
    hide Next, Enabled, Brought, Registers;
    OneMore(es, Spawn(id));
    OneMore(es, ReadStops(id));
    StepReader(Run(Front(es)), Last(es), id);
  }

  lemma {:induction false} RunOpen(es: seq<Event>)
    requires Possible(es)
    ensures Run(es).open <==> Close !in es
    decreases |es|
  {
    if es != [] {
      RunOpen(Front(es));
      OneMore(es, Close);
    }
  }

  lemma StepAnnounces(w: World, e: Event)
    requires Enabled(w, e)
    ensures Announcements(Next(w, e).sent) == Announcements(w.sent) + if w.open then Announced(e) else []
  {
    hide Announcements;
    match e
    case Register(request, ids) => AnnouncementsAppend(w.sent, Started(request, ids));
    case Send(id) =>
      if w.readers[id].phase.Ending? {
        AnnouncementsAppend(w.sent, Ended(id));
      } else {
        AnnouncementsAppend(w.sent, Data(id, w.readers[id].phase.segment));
      }
    case _ =>
  }

  lemma {:induction false} RunAnnounces(es: seq<Event>)
    requires Possible(es)
    ensures Announcements(Run(es).sent) == Registrations(es)
    decreases |es|
  {
    hide Next, Enabled, Announced;
    if es != [] {
      RunAnnounces(Front(es));
      RunOpen(Front(es));
      StepAnnounces(Run(Front(es)), Last(es));
    }
  }

  lemma {:induction false} RunTells(es: seq<Event>, id: StreamId)
    requires Possible(es)
    ensures Tells(es, Run(es), id)
    decreases |es|
  {
    if es != [] {
      RunTells(Front(es), id);
      RunOpen(Front(es));
      StepTells(es, id);
    }
  }

  /** What is announced is what was registered before the channel closed. On every run,
      for every stream: it is announced before anything else is said of it, its segments
      have 1 to 4096 bytes, nothing follows its one end; the segments are the bytes
      read, in order, but for a last piece not yet sent or lost to a closed channel. The
      end is said only after the reads have stopped, when everything read has arrived,
      and once they have stopped it is said, or about to be, unless the channel closed.
      A stream that was not registered is never mentioned. */
  lemma StreamProtocol(es: seq<Event>, id: StreamId)
    requires Possible(es)
    ensures Announcements(Run(es).sent) == Registrations(es)
    ensures id in Run(es).readers <==> Registered(es, id)
    ensures var w, v := Run(es), ViewOf(Run(es).sent, id);
      && !v.broken && (w.open <==> Close !in es)
      && (id !in w.readers ==> !v.started && !v.ended && v.bytes == [])
      && (id in w.readers ==>
            && v.started && v.bytes + Unsent(w.readers[id].phase) == BytesRead(es, id)
            && (v.ended ==> ReadStops(id) in es && v.bytes == BytesRead(es, id))
            && (ReadStops(id) in es ==> v.ended || w.readers[id].phase.Ending? || Close in es)
            && (w.readers[id].phase.Ending? || w.readers[id].phase.Done? <==> ReadStops(id) in es)
            && (w.readers[id].phase.Waiting? <==> Spawn(id) !in es)
            && (w.readers[id].phase.GivenUp? ==> Close in es))
  {
    RunKeeps(es);
    RunTells(es, id);
    RunOpen(es);
    RunAnnounces(es);
  }

  /** The channel may close at any time. A reader comes to its end: until it has returned it can always take a step, and
      while the channel is open sending delivers the segment in hand, after which it
      reads on, or the end. */
  lemma ReaderGoesOn(es: seq<Event>, id: StreamId)
    requires Possible(es) && Registered(es, id)
    ensures id in Run(es).readers
    ensures var w := Run(es); var phase := w.readers[id].phase;
      && (phase.Waiting? ==> Enabled(w, Spawn(id))) && Enabled(w, Close)
      && (phase.Reading? <==> Enabled(w, ReadStops(id)))
      && (phase.Reading? ==> forall data :: Enabled(w, Read(id, data)) <==> 1 <= |data| <= BUFFER_SIZE)
      && (phase.Sending? || phase.Ending? <==> Enabled(w, Send(id)))
      && (phase.Ending? && w.open ==> ViewOf(Next(w, Send(id)).sent, id).ended)
      && (phase.Sending? && w.open ==>
            && id in Next(w, Send(id)).readers && Next(w, Send(id)).readers[id].phase.Reading?
            && ViewOf(Next(w, Send(id)).sent, id).bytes == BytesRead(es, id))
  {
    hide ViewOf;
    RunTells(es, id);
    RunKeeps(es);
    var w := Run(es);
    if Enabled(w, Send(id)) {
      StepKeeps(w, Send(id));
      assert Followed(Next(w, Send(id)), id);
    }
  }
}
